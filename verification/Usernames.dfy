/** Random codes, e-mail prefixes and username candidates. A string is a sequence of bytes. */
module Usernames {
  import opened Domain

  predicate IsDigit(c: char) {
    '0' <= c <= '9'
  }

  /** What GenerateOTP(6) returns. */
  type Suffix = s: string | |s| == 6 && forall i :: 0 <= i < |s| ==> IsDigit(s[i]) witness "000000"

  const MAX_USERNAME := 100
  const MAX_TRIES := 10

  /** The part of an e-mail address before its first '@', or all of it when there is none. */
  function EmailPrefix(email: string): string {
    if email == "" || email[0] == '@' then "" else [email[0]] + EmailPrefix(email[1..])
  }

  function Candidate(prefix: string, suffix: Suffix): string {
    prefix + "_" + suffix
  }

  lemma {:induction false} EmailPrefixAt(email: string, n: nat)
    requires n <= |email| && (n == |email| || email[n] == '@') && '@' !in email[..n]
    ensures EmailPrefix(email) == email[..n]
  {
    if n > 0 {
      assert email[0] in email[..n];
      assert email[1..][..n - 1] == email[..n][1..];
      EmailPrefixAt(email[1..], n - 1);
    }
  }

  method GetEmailPrefix(email: string) returns (r: string)
    ensures r == EmailPrefix(email)
  {
    var i := 0;
    while i < |email|
      invariant 0 <= i <= |email| && '@' !in email[..i]
    {
      if email[i] == '@' {
        EmailPrefixAt(email, i);
        return email[..i];
      }
      i := i + 1;
    }
    EmailPrefixAt(email, i);
    assert email[..i] == email;
    r := email;
  }

  /** A drawn number below ten, or a failure of the random source. */
  type Number = n: Option<nat> | n.Some? ==> n.value < 10 witness None

  function Digit(n: nat): char
    requires n < 10
  {
    "0123456789"[n]
  }

  /** Fills a buffer of `length` characters with drawn digits; a failed draw ends it. */
  method GenerateOTP(length: nat, numbers: seq<Number>) returns (r: Option<string>)
    requires length <= |numbers|
    ensures r.Some? <==> None !in numbers[..length]
    ensures r.Some? ==> |r.value| == length
                        && forall i :: 0 <= i < length ==>
                           IsDigit(r.value[i]) && r.value[i] as int == '0' as int + numbers[i].value
  {
    var code := new char[length](_ => '0');
    var i := 0;
    while i < length
      invariant 0 <= i <= length && None !in numbers[..i]
      invariant forall j :: 0 <= j < i ==> IsDigit(code[j]) && code[j] as int == '0' as int + numbers[j].value
    {
      if numbers[i].None? {
        assert numbers[..length][i] == None;
        return None;
      }
      code[i] := Digit(numbers[i].value);
      assert numbers[..i + 1] == numbers[..i] + [numbers[i]];
      i := i + 1;
    }
    r := Some(code[..]);
  }

  /** Draws suffixes until a candidate fits; None is a failed random source, or no candidate. */
  method GenerateUsername(prefix: string, draws: seq<Option<Suffix>>) returns (r: Option<string>)
    ensures r.Some? <==> draws != [] && draws[0].Some? && |prefix| + 7 <= MAX_USERNAME
    ensures r.Some? ==> r.value == Candidate(prefix, draws[0].value)
  {
    var i := 0;
    while i < |draws|
      invariant 0 <= i <= |draws|
      invariant i > 0 ==> draws[0].Some? && |prefix| + 7 > MAX_USERNAME
    {
      if draws[i].None? {
        return None;
      }
      var username := Candidate(prefix, draws[i].value);
      if |username| <= MAX_USERNAME {
        return Some(username);
      }
      i := i + 1;
    }
    r := None;
  }

  predicate FirstAt(email: string, at: int) {
    0 <= at < |email| && email[at] == '@' && '@' !in email[..at]
  }

  /** At least one character before the first '@', at least four after it, a dot among them, and
      between 5 and 255 characters in all. */
  ghost predicate WellFormedEmail(email: string) {
    && 5 <= |email| <= 255
    && exists at, dot :: 0 < at < dot < |email| && FirstAt(email, at) && email[dot] == '.' && |email| - at >= 5
  }

  method IsValidEmail(email: string) returns (r: bool)
    ensures r <==> WellFormedEmail(email)
  {
    if |email| < 5 || |email| > 255 {
      return false;
    }
    var atIndex := -1;
    var i := 0;
    while i < |email| && atIndex < 0
      invariant 0 <= i <= |email|
      invariant if atIndex < 0 then '@' !in email[..i]
                else FirstAt(email, atIndex)
    {
      if email[i] == '@' {
        atIndex := i;
      } else {
        assert email[..i + 1] == email[..i] + [email[i]];
        i := i + 1;
      }
    }
    if atIndex < 1 || atIndex > |email| - 5 {
      assert atIndex < 0 ==> email[..i] == email;
      return false;
    }
    var afterAt := email[atIndex + 1..];
    r := false;
    i := 0;
    while i < |afterAt| && !r
      invariant 0 <= i <= |afterAt| && r == ('.' in afterAt[..i])
    {
      r := afterAt[i] == '.';
      assert afterAt[..i + 1] == afterAt[..i] + [afterAt[i]];
      i := i + 1;
    }
    DotBehind(email, atIndex);
    assert afterAt[..|afterAt|] == afterAt;
    if r { assert '.' in afterAt; }
  }

  lemma DotBehind(email: string, at: nat)
    requires at < |email|
    ensures '.' in email[at + 1..] <==> exists dot :: at < dot < |email| && email[dot] == '.'
  {
    forall dot | at < dot < |email| && email[dot] == '.' ensures '.' in email[at + 1..] {
      assert email[at + 1..][dot - at - 1] == '.';
    }
  }

  /** A username splits back into the prefix and the six digits it was made from, so users whose
      prefixes differ never collide. */
  lemma CandidateSplits(p: string, s: Suffix, q: string, t: Suffix)
    requires Candidate(p, s) == Candidate(q, t)
    ensures p == q && s == t
  {
    var name := Candidate(p, s);
    assert name[..|name| - 7] == p && name[|name| - 6..] == s;
    assert name[..|name| - 7] == q && name[|name| - 6..] == t;
  }
}
