/** The string keys of the SQL stores' flat state table, and when two entries share a key. */
module StateKeys {
  import opened Types

  const SEPARATOR := ':'

  function DigitChar(d: nat): char
    requires d < 10
  {
    '0' + d as char
  }

  function NatToString(n: nat): string {
    if n < 10 then [DigitChar(n)] else NatToString(n / 10) + [DigitChar(n % 10)]
  }

  function IntToString(i: int): string {
    if i < 0 then "-" + NatToString(-i) else NatToString(i)
  }

  predicate SeparatorFree(s: string) {
    SEPARATOR !in s
  }

  /** Reads decimal digits back. */
  function Decode(s: string): int {
    if s == [] then 0 else Decode(s[..|s| - 1]) * 10 + (s[|s| - 1] as int - '0' as int)
  }

  lemma {:induction false} NatToStringDecodes(n: nat)
    ensures Decode(NatToString(n)) == n
    ensures SeparatorFree(NatToString(n)) && '-' !in NatToString(n)
    ensures |NatToString(n)| > 0
  {
    if n < 10 {
      assert NatToString(n)[..0] == [];
    } else {
      NatToStringDecodes(n / 10);
      var s := NatToString(n);
      assert s[..|s| - 1] == NatToString(n / 10);
    }
  }

  lemma IntToStringInjective(i: int, j: int)
    ensures SeparatorFree(IntToString(i))
    ensures IntToString(i) == IntToString(j) ==> i == j
  {
    NatToStringDecodes(if i < 0 then -i else i);
    NatToStringDecodes(if j < 0 then -j else j);
    if IntToString(i) == IntToString(j) {
      assert (i < 0) == (IntToString(i)[0] == '-');
      assert (j < 0) == (IntToString(j)[0] == '-');
      if i < 0 {
        assert IntToString(i)[1..] == NatToString(-i) && IntToString(j)[1..] == NatToString(-j);
      }
    }
  }

  function StepKey(workflowId: string, stepId: int): string {
    workflowId + [SEPARATOR] + IntToString(stepId)
  }

  function EventKey(workflowId: string, key: string): string {
    workflowId + [SEPARATOR] + key
  }

  function StreamKey(workflowId: string, key: string, offset: int): string {
    workflowId + [SEPARATOR] + key + [SEPARATOR] + IntToString(offset)
  }

  function MessageKey(m: WorkflowMessage): string {
    m.destinationId + [SEPARATOR] + m.topic + [SEPARATOR] + IntToString(m.createdAt)
  }

  lemma SeparatorPositions(s: string, a: string, b: string)
    requires s == a + [SEPARATOR] + b
    ensures s[|a|] == SEPARATOR && s[..|a|] == a && s[|a| + 1..] == b
    ensures SeparatorFree(b) ==> forall i :: |a| < i < |s| ==> s[i] != SEPARATOR
  {
    forall i | |a| < i < |s|
      ensures s[i] == b[i - |a| - 1] && s[i] in b
    {
    }
  }

  /** A string splits in only one way at a separator that is known to be its last. */
  lemma LastSeparatorSplits(a: string, b: string, c: string, d: string)
    requires a + [SEPARATOR] + b == c + [SEPARATOR] + d
    requires SeparatorFree(b) && SeparatorFree(d)
    ensures a == c && b == d
  {
    SeparatorPositions(a + [SEPARATOR] + b, a, b);
    SeparatorPositions(a + [SEPARATOR] + b, c, d);
    assert |a| == |c|;
  }

  /** Step keys never collide, even for workflow ids that contain the separator. */
  lemma StepKeyInjective(w1: string, n1: int, w2: string, n2: int)
    requires StepKey(w1, n1) == StepKey(w2, n2)
    ensures w1 == w2 && n1 == n2
  {
    IntToStringInjective(n1, n2);
    IntToStringInjective(n2, n1);
    LastSeparatorSplits(w1, IntToString(n1), w2, IntToString(n2));
  }

  /** Event keys of two different workflows can collide exactly when one workflow id continues the other with
      the separator. */
  lemma EventKeysCollideIff(w1: string, w2: string)
    requires w1 != w2
    ensures (exists k1, k2 :: EventKey(w1, k1) == EventKey(w2, k2)) <==> w1 + [SEPARATOR] <= w2 || w2 + [SEPARATOR] <= w1
  {
    if w1 + [SEPARATOR] <= w2 {
      EventKeysMeet(w1, w2);
    }
    if w2 + [SEPARATOR] <= w1 {
      EventKeysMeet(w2, w1);
    }
    forall k1, k2 | EventKey(w1, k1) == EventKey(w2, k2)
      ensures w1 + [SEPARATOR] <= w2 || w2 + [SEPARATOR] <= w1
    {
      if |w1| <= |w2| {
        MeetingKeysContinue(w1, k1, w2, k2);
      } else {
        MeetingKeysContinue(w2, k2, w1, k1);
      }
    }
  }

  lemma EventKeysMeet(w1: string, w2: string)
    requires w1 + [SEPARATOR] <= w2
    ensures exists k1, k2 :: EventKey(w1, k1) == EventKey(w2, k2)
    ensures exists k1, k2 :: EventKey(w2, k1) == EventKey(w1, k2)
  {
    var k1 := w2[|w1| + 1..] + [SEPARATOR];
    assert w2 == w1 + [SEPARATOR] + w2[|w1| + 1..];
    assert EventKey(w1, k1) == EventKey(w2, []);
  }

  lemma MeetingKeysContinue(w1: string, k1: string, w2: string, k2: string)
    requires EventKey(w1, k1) == EventKey(w2, k2) && w1 != w2 && |w1| <= |w2|
    ensures w1 + [SEPARATOR] <= w2
  {
    var s := EventKey(w2, k2);
    assert s[..|w1|] == w1 && s[|w1|] == SEPARATOR && s[..|w2|] == w2;
    assert |w1| != |w2|;
    assert w2[|w1|] == s[|w1|];
    assert w2[..|w1|] == w1;
    assert w2[..|w1| + 1] == w1 + [SEPARATOR];
  }

  /** Stream keys are event keys with the offset after them. */
  lemma StreamKeysAgreeIff(w1: string, k1: string, n1: int, w2: string, k2: string, n2: int)
    ensures StreamKey(w1, k1, n1) == StreamKey(w2, k2, n2) <==> n1 == n2 && EventKey(w1, k1) == EventKey(w2, k2)
  {
    IntToStringInjective(n1, n2);
    IntToStringInjective(n2, n1);
    if StreamKey(w1, k1, n1) == StreamKey(w2, k2, n2) {
      LastSeparatorSplits(EventKey(w1, k1), IntToString(n1), EventKey(w2, k2), IntToString(n2));
    }
  }

  /** Stream keys of two different workflows can collide exactly when their event keys can. */
  lemma StreamKeysCollideIff(w1: string, w2: string)
    requires w1 != w2
    ensures (exists k1, n1, k2, n2 :: StreamKey(w1, k1, n1) == StreamKey(w2, k2, n2)) <==> w1 + [SEPARATOR] <= w2 || w2 + [SEPARATOR] <= w1
  {
    EventKeysCollideIff(w1, w2);
    if k1, n1, k2, n2 :| StreamKey(w1, k1, n1) == StreamKey(w2, k2, n2) {
      StreamKeysAgreeIff(w1, k1, n1, w2, k2, n2);
    }
    if k1, k2 :| EventKey(w1, k1) == EventKey(w2, k2) {
      StreamKeysAgreeIff(w1, k1, 0, w2, k2, 0);
    }
  }

  /** No id of the set continues another one with the separator. */
  ghost predicate Unambiguous(ids: iset<string>) {
    forall a, b :: a in ids && b in ids && a != b ==> !(a + [SEPARATOR] <= b)
  }

  /** Within such a set event keys and stream keys never collide. */
  lemma UnambiguousKeys(ids: iset<string>, w1: string, k1: string, n1: int, w2: string, k2: string, n2: int)
    requires Unambiguous(ids) && w1 in ids && w2 in ids
    ensures EventKey(w1, k1) == EventKey(w2, k2) ==> w1 == w2 && k1 == k2
    ensures StreamKey(w1, k1, n1) == StreamKey(w2, k2, n2) ==> w1 == w2 && k1 == k2 && n1 == n2
  {
    StreamKeysAgreeIff(w1, k1, n1, w2, k2, n2);
    if EventKey(w1, k1) == EventKey(w2, k2) {
      if w1 != w2 {
        EventKeysCollideIff(w1, w2);
      } else {
        assert EventKey(w1, k1)[|w1| + 1..] == k1 && EventKey(w2, k2)[|w2| + 1..] == k2;
      }
    }
  }

  ghost function PlainIds(): iset<string> {
    iset w: string | SeparatorFree(w)
  }

  /** In particular no two workflow ids without the separator collide. */
  lemma PlainIdsAreUnambiguous()
    ensures Unambiguous(PlainIds())
  {
    forall a: string, b: string | a + [SEPARATOR] <= b
      ensures !SeparatorFree(b)
    {
      ContinuationHasSeparator(a, b);
    }
  }

  lemma ContinuationHasSeparator(a: string, b: string)
    requires a + [SEPARATOR] <= b
    ensures !SeparatorFree(b)
  {
    assert b[|a|] == SEPARATOR;
  }

  lemma StreamKeyInjective(w1: string, k1: string, n1: int, w2: string, k2: string, n2: int)
    requires StreamKey(w1, k1, n1) == StreamKey(w2, k2, n2) && SeparatorFree(w1) && SeparatorFree(w2)
    ensures w1 == w2 && k1 == k2 && n1 == n2
  {
    PlainIdsAreUnambiguous();
    UnambiguousKeys(PlainIds(), w1, k1, n1, w2, k2, n2);
  }
}
