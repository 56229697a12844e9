/** The e-mail pattern `^[A-Za-z0-9._%+-]+@[A-Za-z0-9.-]+\.[A-Za-z]{2,}$`
    (App.js:121-122): its meaning as a regular expression, with the
    backtracking left open as an existential choice of where the `@` and the
    final `.` sit, and a deterministic decision procedure proved equal to it. */
module Patterns {
  import opened CharClasses

  datatype Option<T> = None | Some(value: T)

  /** The position of the first `c` in `s`, if any. */
  function IndexOf(s: string, c: char): (r: Option<nat>)
    ensures r.Some? ==> r.value < |s| && s[r.value] == c && c !in s[..r.value]
    ensures r.None? ==> c !in s
  {
    if s == [] then None
    else if s[0] == c then Some(0)
    else
      match IndexOf(s[1..], c)
      case None => None
      case Some(i) =>
        assert s[..i + 1] == [s[0]] + s[1..][..i];
        Some(i + 1)
  }

  /** The position of the last `c` in `s`, if any. */
  function LastIndexOf(s: string, c: char): (r: Option<nat>)
    ensures r.Some? ==> r.value < |s| && s[r.value] == c && c !in s[r.value + 1..]
    ensures r.None? ==> c !in s
  {
    if s == [] then None
    else if s[|s| - 1] == c then Some(|s| - 1)
    else
      var front := s[..|s| - 1];
      assert s == front + [s[|s| - 1]];
      match LastIndexOf(front, c)
      case None => None
      case Some(i) =>
        assert s[i + 1..] == front[i + 1..] + [s[|s| - 1]];
        Some(i)
  }

  /** The pattern matches `s` with its `@` at `at` and the `.` before the
      top-level label at `dot`: `[A-Za-z0-9._%+-]+` covers `s[..at]`,
      `[A-Za-z0-9.-]+` covers `s[at + 1..dot]` and `[A-Za-z]{2,}` covers
      `s[dot + 1..]`. */
  ghost predicate EmailSplit(s: string, at: nat, dot: nat)
    requires at < dot < |s|
  {
    && s[at] == '@'
    && s[dot] == '.'
    && OneOrMore(LocalChars, s[..at])
    && OneOrMore(DomainChars, s[at + 1..dot])
    && |s| - (dot + 1) >= 2
    && AllIn(Letters, s[dot + 1..])
  }

  /** The regular expression's meaning: some way of placing the `@` and the
      `.` makes every part match. */
  ghost predicate EmailPattern(s: string) {
    exists at: nat, dot: nat | at < dot < |s| :: EmailSplit(s, at, dot)
  }

  /** The decision the validator takes: the `@` is the first one, and the
      top-level label starts after the last `.` of what follows it. */
  predicate IsEmail(s: string) {
    match IndexOf(s, '@')
    case None => false
    case Some(at) =>
      var domain := s[at + 1..];
      && OneOrMore(LocalChars, s[..at])
      && match LastIndexOf(domain, '.')
         case None => false
         case Some(dot) =>
           && OneOrMore(DomainChars, domain[..dot])
           && |domain| - (dot + 1) >= 2
           && AllIn(Letters, domain[dot + 1..])
  }

  /** The deterministic decision agrees with the regular expression on every
      string: no other placement of `@` or `.` can make the pattern match. */
  lemma {:induction false} EmailDecision(s: string)
    ensures IsEmail(s) <==> EmailPattern(s)
  {
    if IsEmail(s) {
      var at := IndexOf(s, '@').value;
      var domain := s[at + 1..];
      var dot := LastIndexOf(domain, '.').value;
      assert domain[..dot] == s[at + 1..at + 1 + dot];
      assert domain[dot + 1..] == s[at + 1 + dot + 1..];
      assert EmailSplit(s, at, at + 1 + dot);
    }
    if EmailPattern(s) {
      var at: nat, dot: nat :| at < dot < |s| && EmailSplit(s, at, dot);
      SplitIsDetermined(s, at, dot);
    }
  }

  /** A split that makes the pattern match is the one `IsEmail` finds, so
      `IsEmail` accepts. */
  lemma SplitIsDetermined(s: string, at: nat, dot: nat)
    requires at < dot < |s| && EmailSplit(s, at, dot)
    ensures IndexOf(s, '@') == Some(at) && LastIndexOf(s[at + 1..], '.') == Some(dot - at - 1)
    ensures IsEmail(s)
  {
    AtIsFirst(s, at, dot);
    DotIsLast(s, at, dot);
    AcceptedAt(s, at, dot);
  }

  /** When the decision finds a matching split, it accepts. */
  lemma AcceptedAt(s: string, at: nat, dot: nat)
    requires at < dot < |s|
    requires OneOrMore(LocalChars, s[..at]) && OneOrMore(DomainChars, s[at + 1..dot])
    requires |s| - (dot + 1) >= 2 && AllIn(Letters, s[dot + 1..])
    requires IndexOf(s, '@') == Some(at) && LastIndexOf(s[at + 1..], '.') == Some(dot - at - 1)
    ensures IsEmail(s)
  {
    DomainSlices(s, at, dot);
    IsEmailIntro(s, at, dot - at - 1);
  }

  /** The decision accepts once each of its conditions is met. */
  lemma IsEmailIntro(s: string, at: nat, d: nat)
    requires IndexOf(s, '@') == Some(at)
    requires OneOrMore(LocalChars, s[..at])
    requires LastIndexOf(s[at + 1..], '.') == Some(d)
    requires OneOrMore(DomainChars, s[at + 1..][..d])
    requires |s[at + 1..]| - (d + 1) >= 2
    requires AllIn(Letters, s[at + 1..][d + 1..])
    ensures IsEmail(s)
  {
  }

  /** The domain's label before its last `.` and the text after it, as
      slices of the whole address. */
  lemma DomainSlices(s: string, at: nat, dot: nat)
    requires at < dot < |s|
    ensures s[at + 1..][..dot - at - 1] == s[at + 1..dot]
    ensures s[at + 1..][dot - at - 1 + 1..] == s[dot + 1..]
  {
  }

  /** The pattern's `@` is the first `@` of the string. */
  lemma AtIsFirst(s: string, at: nat, dot: nat)
    requires at < dot < |s| && EmailSplit(s, at, dot)
    ensures IndexOf(s, '@') == Some(at)
  {
    NoAtInClasses(LocalChars);
    AbsentFromPrefix(s, '@', at);
    var i := IndexOf(s, '@').value;
    AbsentFromPrefix(s, '@', i);
  }

  /** The pattern's `.` is the last `.` after the `@`. */
  lemma DotIsLast(s: string, at: nat, dot: nat)
    requires at < dot < |s| && EmailSplit(s, at, dot)
    ensures LastIndexOf(s[at + 1..], '.') == Some(dot - at - 1)
  {
    var domain := s[at + 1..];
    var d := dot - at - 1;
    assert domain[d] == '.';
    assert '.' !in domain[d + 1..] by {
      NoDotInLetters(s[dot + 1..]);
      assert domain[d + 1..] == s[dot + 1..];
    }
    LastIndexOfAt(domain, '.', d);
  }

  /** A character that occurs at `i` and nowhere after it is last there. */
  lemma LastIndexOfAt(s: string, c: char, i: nat)
    requires i < |s| && s[i] == c && c !in s[i + 1..]
    ensures LastIndexOf(s, c) == Some(i)
  {
    AbsentFromSuffix(s, c, i + 1);
    var j := LastIndexOf(s, c).value;
    AbsentFromSuffix(s, c, j + 1);
  }

  /** No character of the top-level label is a `.`. */
  lemma NoDotInLetters(t: string)
    requires AllIn(Letters, t)
    ensures '.' !in t
  {
    forall k | 0 <= k < |t|
      ensures t[k] != '.'
    {
      assert InClass(Letters, t[k]);
    }
  }

  /** A character absent from a prefix is at none of its positions. */
  lemma AbsentFromPrefix(s: string, c: char, n: nat)
    requires n <= |s| && c !in s[..n]
    ensures forall k | 0 <= k < n :: s[k] != c
  {
    forall k | 0 <= k < n
      ensures s[k] != c
    {
      assert s[..n][k] == s[k];
    }
  }

  /** A character absent from a suffix is at none of its positions. */
  lemma AbsentFromSuffix(s: string, c: char, n: nat)
    requires n <= |s| && c !in s[n..]
    ensures forall k | n <= k < |s| :: s[k] != c
  {
    forall k | n <= k < |s|
      ensures s[k] != c
    {
      assert s[n..][k - n] == s[k];
    }
  }

  /** An address the pattern accepts holds exactly one `@`. */
  lemma EmailHasOneAt(s: string)
    requires EmailPattern(s)
    ensures multiset(s)['@'] == 1
  {
    var at: nat, dot: nat :| at < dot < |s| && EmailSplit(s, at, dot);
    NoAtInClasses(LocalChars);
    NoAtInClasses(DomainChars);
    NoAtInClasses(Letters);
    var local, domain, tld := s[..at], s[at + 1..dot], s[dot + 1..];
    assert s == local + ['@'] + domain + ['.'] + tld;
    assert '@' !in local;
    assert '@' !in domain;
    assert '@' !in tld;
  }

  /** Every address the pattern accepts has an `@`, and the text after its
      last `.` is at least two characters long: a string lacking either is
      rejected. */
  lemma EmailShape(s: string)
    requires EmailPattern(s)
    ensures '@' in s
    ensures LastIndexOf(s, '.').Some? && |s| - LastIndexOf(s, '.').value - 1 >= 2
  {
    var at: nat, dot: nat :| at < dot < |s| && EmailSplit(s, at, dot);
    assert s[at] == '@';
    NoDotInLetters(s[dot + 1..]);
    AbsentFromSuffix(s, '.', dot + 1);
    var last := LastIndexOf(s, '.').value;
    AbsentFromSuffix(s, '.', last + 1);
  }
}
