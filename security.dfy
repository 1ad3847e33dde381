/** The two data-protection checks that are plain logic: the e-mail domain gate of
    `SecurityManager` and the redaction of sensitive fields by `DataProtection`.
    Encryption, tokens and the audit log are not part of this module. */
module Security {
  import opened Wrappers
  import opened Text
  import opened Json

  class SecurityManager {
    /** The raw `ALLOWED_DOMAINS` environment value, `[]` when unset. */
    const allowedDomains: string

    /** `SecurityManager()`, given the `ALLOWED_DOMAINS` environment variable. */
    constructor (allowedDomainsEnv: Option<string>)
      ensures allowedDomains == allowedDomainsEnv.GetOr("[]")
    {
      allowedDomains := allowedDomainsEnv.GetOr("[]");
    }

    /** `is_domain_allowed`: an empty address or one without `@` is refused; otherwise the
        domain must occur somewhere in the raw allowed-domains string. */
    function IsDomainAllowed(email: string): (r: bool)
      ensures r ==> email != [] && '@' in email
      ensures '@' in email ==> (r <==> IsSubstring(Domain(email), allowedDomains))
    {
      if email == [] || '@' !in email then false
      else IsSubstring(Domain(email), allowedDomains)
    }
  }

  /** `email.split('@')[1]`. */
  function Domain(email: string): (r: string)
    requires '@' in email
    ensures '@' !in r
  {
    SplitAtChar(email);
    SplitOn(email, '@')[1]
  }

  /** A string holding `@` splits into at least two pieces at it. */
  lemma SplitAtChar(s: string)
    requires '@' in s
    ensures |SplitOn(s, '@')| >= 2
  {
    var i :| 0 <= i < |s| && s[i] == '@';
    var n := Run(NotAt, s);
    assert '@' !in s[..n] by {
      assert forall k :: 0 <= k < n ==> s[..n][k] == s[k];
    }
    assert !NotAt(s[i]);
    assert n <= i;
    assert s == s[..n] + ['@'] + s[n + 1..];
    SplitOnFirst(s[..n], s[n + 1..], '@');
  }

  predicate NotAt(c: char)
  {
    c != '@'
  }

  /** The domain is the text between the first `@` and the next one, or the end. */
  lemma DomainBetween(email: string, i: nat, j: nat)
    requires i < j <= |email|
    requires email[i] == '@' && '@' !in email[..i]
    requires '@' !in email[i + 1..j]
    requires j == |email| || email[j] == '@'
    ensures Domain(email) == email[i + 1..j]
  {
    DomainAfter(email, i);
    var t := email[i + 1..];
    assert t[..j - i - 1] == email[i + 1..j];
    SplitOnHead(t, '@', j - i - 1);
  }

  /** After the first `@`, the domain is the first field of the rest. */
  lemma DomainAfter(email: string, i: nat)
    requires i < |email| && email[i] == '@' && '@' !in email[..i]
    ensures Domain(email) == SplitOn(email[i + 1..], '@')[0]
  {
    assert email == email[..i] + ['@'] + email[i + 1..];
    SplitOnFirst(email[..i], email[i + 1..], '@');
  }

  /** With `ALLOWED_DOMAINS` unset the list is the two characters `[]`: an address with
      an empty domain gets through, and an ordinary one is refused. */
  lemma DefaultDomains(m: SecurityManager)
    requires m.allowedDomains == "[]"
    ensures m.IsDomainAllowed("user@")
    ensures !m.IsDomainAllowed("user@x.com")
  {
    DomainBetween("user@", 4, 5);
    assert "user@"[5..] == "";
    DomainBetween("user@x.com", 4, 10);
    assert "user@x.com"[5..10] == "x.com";
    assert !IsSubstring("x.com", "]");
  }

  /** The fields `sanitize_training_data` redacts, in the order it visits them. */
  const SensitiveFields: seq<string> := ["employee_ids", "batch_numbers", "proprietary_codes"]

  const Redacted := Str("[REDACTED]")

  /** One step of the redaction loop: a present field is overwritten, an absent one
      is not added. */
  function Redact(d: Dict, field: string): (r: Dict)
    ensures r.Keys == d.Keys
    ensures field in d ==> r[field] == Redacted
    ensures forall k :: k in d && k != field ==> r[k] == d[k]
  {
    if field in d then d[field := Redacted] else d
  }

  /** The redaction loop over `fields`, in order. */
  function RedactAll(d: Dict, fields: seq<string>): Dict
    decreases |fields|
  {
    if fields == [] then d
    else Redact(RedactAll(d, fields[..|fields| - 1]), fields[|fields| - 1])
  }

  /** After redacting `fields`: the same keys, each listed key redacted, every other
      value as it was. */
  lemma {:induction false} RedactAllMeaning(d: Dict, fields: seq<string>)
    ensures RedactAll(d, fields).Keys == d.Keys
    ensures forall k :: k in d && k in fields ==> RedactAll(d, fields)[k] == Redacted
    ensures forall k :: k in d && k !in fields ==> RedactAll(d, fields)[k] == d[k]
    decreases |fields|
  {
    if fields != [] {
      var init := fields[..|fields| - 1];
      RedactAllMeaning(d, init);
      assert fields == init + [fields[|fields| - 1]];
    }
  }

  /** `DataProtection.sanitize_training_data`: a copy of `data` with the sensitive
      fields redacted; `data` itself is a value and stays as it was. */
  method SanitizeTrainingData(data: Dict) returns (sanitized: Dict)
    ensures sanitized == RedactAll(data, SensitiveFields)
  {
    var sensitiveFields := SensitiveFields;
    sanitized := data;
    for i := 0 to |sensitiveFields|
      invariant sanitized == RedactAll(data, sensitiveFields[..i])
    {
      var field := sensitiveFields[i];
      assert sensitiveFields[..i + 1][..i] == sensitiveFields[..i];
      if field in sanitized {
        sanitized := sanitized[field := Redacted];
      }
    }
    assert sensitiveFields[..|sensitiveFields|] == sensitiveFields;
  }

  /** Sanitising twice is sanitising once. */
  lemma SanitizeIdempotent(data: Dict)
    ensures RedactAll(RedactAll(data, SensitiveFields), SensitiveFields) == RedactAll(data, SensitiveFields)
  {
    var once := RedactAll(data, SensitiveFields);
    RedactAllMeaning(data, SensitiveFields);
    RedactAllMeaning(once, SensitiveFields);
  }
}
