/**
 * The e-mail recogniser of users.go (`UserRegisterReq.IsEmail`): the
 * anchored pattern `^[\w-\.]+@([\w-]+\.)+[\w-]{2,4}$`. In Go's RE2 syntax
 * `\w` is the ASCII class [0-9A-Za-z_], and `[\w-\.]` is that class plus
 * "-" and ".". The recogniser is a hand-written automaton run over the
 * text; it is proved equal to a declarative description by labels.
 */
module Users {
  import opened SqlText

  predicate WordChar(c: char)
  {
    'a' <= c <= 'z' || 'A' <= c <= 'Z' || '0' <= c <= '9' || c == '_'
  }

  /** `[\w-]`: a character of a domain label. */
  predicate LabelChar(c: char) { WordChar(c) || c == '-' }

  /** `[\w-\.]`: a character of the local part. */
  predicate LocalChar(c: char) { LabelChar(c) || c == '.' }

  predicate LabelChars(s: string) { forall i :: 0 <= i < |s| ==> LabelChar(s[i]) }

  predicate LocalChars(s: string) { forall i :: 0 <= i < |s| ==> LocalChar(s[i]) }

  // ---------------------------------------------------------------------------
  // The declarative description

  /** The local part: one or more of letters, digits, "_", "-" and ".". */
  predicate LocalOk(local: string)
  {
    local != [] && LocalChars(local)
  }

  /**
   * The domain: at least two labels separated by ".", each non-empty over
   * letters, digits, "_" and "-", the last one 2 to 4 characters long.
   */
  predicate DomainOk(domain: string)
  {
    var labels := Split(domain, '.');
    |labels| >= 2
    && (forall i :: 0 <= i < |labels| ==> labels[i] != [] && LabelChars(labels[i]))
    && 2 <= |labels[|labels| - 1]| <= 4
  }

  /** The text is a local part, one "@", and a domain. */
  predicate EmailSpec(s: string)
  {
    var parts := Split(s, '@');
    |parts| == 2 && LocalOk(parts[0]) && DomainOk(parts[1])
  }

  // ---------------------------------------------------------------------------
  // The recogniser

  /**
   * The automaton's states: nothing read; inside the local part; at the
   * start of a label (`dotted`: a "." has been read after the "@"); inside a
   * label of `len` characters (counted up to 5); rejected.
   */
  datatype MatchState = LocalStart | InLocal | LabelStart(dotted: bool) | InLabel(len: nat, dotted: bool) | Reject

  function Min(a: nat, b: nat): nat { if a <= b then a else b }

  function Step(st: MatchState, c: char): MatchState
  {
    match st
    case LocalStart => if LocalChar(c) then InLocal else Reject
    case InLocal => if LocalChar(c) then InLocal else if c == '@' then LabelStart(false) else Reject
    case LabelStart(d) => if LabelChar(c) then InLabel(1, d) else Reject
    case InLabel(n, d) => if LabelChar(c) then InLabel(Min(n + 1, 5), d) else if c == '.' then LabelStart(true) else Reject
    case Reject => Reject
  }

  /** The state after reading `s` from the start. */
  function Run(s: string): MatchState
  {
    if s == [] then LocalStart else Step(Run(s[..|s| - 1]), s[|s| - 1])
  }

  /** The end of the text is reached after a final label of 2 to 4 characters. */
  predicate Accepting(st: MatchState)
  {
    st.InLabel? && st.dotted && 2 <= st.len <= 4
  }

  /**
   * `IsEmail`. The pattern is a constant that compiles, so the error branch
   * of `regexp.MatchString` is never taken and the answer is the match.
   */
  predicate IsEmail(email: string)
  {
    Accepting(Run(email))
  }

  // ---------------------------------------------------------------------------
  // Correctness of the recogniser

  /** The state the automaton should be in after `s`, described by the pieces of `s`. */
  function Expected(s: string): MatchState
  {
    var parts := Split(s, '@');
    if |parts| == 1 then (if s == [] then LocalStart else if LocalChars(s) then InLocal else Reject)
    else if |parts| == 2 && LocalOk(parts[0]) then DomainState(parts[1])
    else Reject
  }

  /** The first `k` labels are non-empty and made of label characters. */
  predicate LabelsOk(labels: seq<string>, k: nat)
    requires k <= |labels|
  {
    forall i :: 0 <= i < k ==> labels[i] != [] && LabelChars(labels[i])
  }

  /** The state after the labels of a domain: every label but the last complete, the last one under way. */
  function LabelsState(labels: seq<string>): MatchState
    requires |labels| >= 1
  {
    var last := labels[|labels| - 1];
    if LabelsOk(labels, |labels| - 1) && LabelChars(last) then
      (if last == [] then LabelStart(|labels| > 1) else InLabel(Min(|last|, 5), |labels| > 1))
    else Reject
  }

  /** The state after reading the text `d` that follows the "@". */
  function DomainState(d: string): MatchState
  {
    LabelsState(Split(d, '.'))
  }

  lemma SplitSingle(s: string, sep: char)
    requires |Split(s, sep)| == 1
    ensures Split(s, sep) == [s]
  {
    JoinSplit(s, sep);
  }

  /** Reading one more character of the domain. */
  lemma DomainStep(d: string, c: char)
    requires c != '@'
    ensures DomainState(d + [c]) == Step(DomainState(d), c)
  {
    var labels := Split(d, '.');
    if c == '.' {
      SplitSnocSep(d, '.');
      LabelsDot(labels);
    } else {
      SplitSnocOther(d, c, '.');
      LabelsOther(labels, c);
    }
  }

  /** A dot closes the last label and opens an empty one. */
  lemma LabelsDot(labels: seq<string>)
    requires |labels| >= 1
    ensures LabelsState(labels + [[]]) == Step(LabelsState(labels), '.')
  {
    var n := |labels|;
    var longer := labels + [[]];
    assert forall i :: 0 <= i < n ==> longer[i] == labels[i];
    assert LabelsOk(longer, n) == (LabelsOk(labels, n - 1) && labels[n - 1] != [] && LabelChars(labels[n - 1]));
    assert !LabelChar('.');
  }

  /** Any other character extends the last label. */
  lemma LabelsOther(labels: seq<string>, c: char)
    requires |labels| >= 1 && c != '.' && c != '@'
    ensures var n := |labels|;
      LabelsState(labels[..n - 1] + [labels[n - 1] + [c]]) == Step(LabelsState(labels), c)
  {
    var n := |labels|;
    var last := labels[n - 1];
    var longer := labels[..n - 1] + [last + [c]];
    assert forall i :: 0 <= i < n - 1 ==> longer[i] == labels[i];
    assert LabelsOk(longer, n - 1) == LabelsOk(labels, n - 1);
    assert longer[n - 1] == last + [c];
    assert LabelChars(last + [c]) <==> LabelChars(last) && LabelChar(c) by {
      assert forall i :: 0 <= i < |last| ==> (last + [c])[i] == last[i];
      assert (last + [c])[|last|] == c;
    }
    assert Min(Min(|last|, 5) + 1, 5) == Min(|last| + 1, 5);
  }

  /** Reading "@". */
  lemma ExpectedAt(s: string)
    ensures Expected(s + ['@']) == Step(Expected(s), '@')
  {
    var parts := Split(s, '@');
    SplitSnocSep(s, '@');
    if |parts| == 1 {
      SplitSingle(s, '@');
      assert Split(s + ['@'], '@') == [s, []];
      assert Split([], '.') == [[]];
    } else if |parts| == 2 && LocalOk(parts[0]) {
      var labels := Split(parts[1], '.');
      assert !LabelChar('@');
    }
  }

  /** Reading another character than "@". */
  lemma ExpectedOther(s: string, c: char)
    requires c != '@'
    ensures Expected(s + [c]) == Step(Expected(s), c)
  {
    var parts := Split(s, '@');
    SplitSnocOther(s, c, '@');
    var parts' := Split(s + [c], '@');
    if |parts| == 1 {
      SplitSingle(s, '@');
      assert parts' == [s + [c]];
      assert LocalChars(s + [c]) <==> LocalChars(s) && LocalChar(c) by {
        assert forall i :: 0 <= i < |s| ==> (s + [c])[i] == s[i];
        assert (s + [c])[|s|] == c;
      }
    } else if |parts| == 2 {
      assert parts' == [parts[0], parts[1] + [c]];
      if LocalOk(parts[0]) {
        DomainStep(parts[1], c);
      }
    }
  }

  /** The automaton is always in the expected state. */
  lemma {:induction false} RunExpected(s: string)
    ensures Run(s) == Expected(s)
  {
    if s != [] {
      var init := s[..|s| - 1];
      var c := s[|s| - 1];
      RunExpected(init);
      assert s == init + [c];
      if c == '@' {
        ExpectedAt(init);
      } else {
        ExpectedOther(init, c);
      }
    }
  }

  /** The recogniser accepts exactly the texts the declarative description admits. */
  lemma IsEmailCorrect(s: string)
    ensures IsEmail(s) <==> EmailSpec(s)
  {
    RunExpected(s);
    var parts := Split(s, '@');
    if |parts| == 2 && LocalOk(parts[0]) {
      LabelsAccepting(Split(parts[1], '.'));
    }
  }

  /** The automaton accepts after a domain's labels exactly when they make a valid domain. */
  lemma LabelsAccepting(labels: seq<string>)
    requires |labels| >= 1
    ensures Accepting(LabelsState(labels)) <==>
      |labels| >= 2 && (forall i :: 0 <= i < |labels| ==> labels[i] != [] && LabelChars(labels[i]))
      && 2 <= |labels[|labels| - 1]| <= 4
  {
    var n := |labels|;
    var last := labels[n - 1];
    if LabelsOk(labels, n - 1) && LabelChars(last) && last != [] {
      assert forall i :: 0 <= i < n ==> labels[i] != [] && LabelChars(labels[i]) by {
        forall i | 0 <= i < n
          ensures labels[i] != [] && LabelChars(labels[i])
        {
          if i == n - 1 {
            assert labels[i] == last;
          }
        }
      }
    }
  }

  /** An accepted text has exactly one "@", with a valid local part before it and a valid domain after it. */
  lemma AcceptedShape(s: string)
    requires IsEmail(s)
    ensures Occurrences(s, '@') == 1
    ensures var parts := Split(s, '@'); |parts| == 2 && s == parts[0] + "@" + parts[1] && LocalOk(parts[0]) && DomainOk(parts[1])
  {
    IsEmailCorrect(s);
    SplitCount(s, '@');
    JoinSplit(s, '@');
    var parts := Split(s, '@');
    assert parts[1..] == [parts[1]];
  }

  /** A local part, "@" and labels as described make an accepted text. */
  lemma AcceptedFromParts(local: string, labels: seq<string>)
    requires LocalOk(local)
    requires |labels| >= 2 && forall i :: 0 <= i < |labels| ==> labels[i] != [] && LabelChars(labels[i])
    requires 2 <= |labels[|labels| - 1]| <= 4
    ensures IsEmail(local + "@" + Join(labels, '.'))
  {
    forall i | 0 <= i < |labels|
      ensures Free(labels[i], '.') && Free(labels[i], '@')
    {
    }
    SplitJoin(labels, '.');
    JoinFree(labels, '.', '@');
    assert Free(local, '@');
    var d := Join(labels, '.');
    SplitPrefix(local, d, '@');
    SplitFree(d, '@');
    var e := local + "@" + d;
    assert e == local + ['@'] + d;
    assert Split(e, '@') == [local, d];
    assert DomainOk(d);
    SpecAccepted(e);
  }

  lemma SpecAccepted(s: string)
    requires EmailSpec(s)
    ensures IsEmail(s)
  {
    IsEmailCorrect(s);
  }
}
