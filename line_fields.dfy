/**
 * Runs of labelled one-line fields, the common form of the "Live Session
 * Details" and "Revision sessions" patterns: a literal, then a group `(.+?)`
 * or `(.+)` without DOTALL, then the next literal, which starts with the
 * newline that ends the group's line, and so on. Because `.` cannot match a
 * newline, the backtracking engine has exactly one way to match such a run
 * at a given start: every group is the rest of its line.
 */
module LineFields {
  import opened Text
  import opened Regex

  /** Every literal after the first begins with the newline that ends the value before it. */
  predicate NewlineLed(lits: seq<string>)
    decreases |lits|
  {
    |lits| <= 1 || (|lits[1]| > 0 && lits[1][0] == '\n' && NewlineLed(lits[1..]))
  }

  /** Every value is a non-empty piece of one line. */
  predicate LineValues(vals: seq<string>)
    decreases |vals|
  {
    vals == [] || (IsLineValue(vals[0]) && LineValues(vals[1..]))
  }

  /** The text that literals `lits` interleaved with values `vals` make up. */
  function Labelled(lits: seq<string>, vals: seq<string>): string
    requires |lits| == |vals|
  {
    if lits == [] then "" else lits[0] + vals[0] + Labelled(lits[1..], vals[1..])
  }

  /**
   * A literal `lit` at `i`, then a group that a newline or the end of `s`
   * follows: the value is the rest of the line and must not be empty.
   * Returns where the value ends.
   */
  function FieldEnd(s: string, i: nat, lit: string): (r: Option<nat>)
    ensures r.Some? ==> i + |lit| < r.value <= |s|
  {
    if !StartsAt(s, i, lit) then None
    else
      var e := LineEnd(s, i + |lit|);
      if e == i + |lit| then None else Some(e)
  }

  /** The values of a run of labelled fields starting at `i`, with where the run ends. */
  function FieldRun(s: string, i: nat, lits: seq<string>): (r: Option<(seq<string>, nat)>)
    ensures r.Some? ==> |r.value.0| == |lits| && i <= r.value.1
    ensures r.Some? && |lits| > 0 ==> i < r.value.1 <= |s|
    decreases |lits|
  {
    if lits == [] then Some(([], i))
    else match FieldEnd(s, i, lits[0])
      case None => None
      case Some(e) =>
        match FieldRun(s, e, lits[1..])
        case None => None
        case Some((vs, end)) => Some(([s[i + |lits[0]|..e]] + vs, end))
  }

  /** The run of fields stands at `i` with values `vals`, and its last value ends a line. */
  ghost predicate RunOk(s: string, i: nat, lits: seq<string>, vals: seq<string>) {
    |vals| == |lits| && LineValues(vals)
    && StartsAt(s, i, Labelled(lits, vals)) && EndsLine(s, i + |Labelled(lits, vals)|)
  }

  /** Where `lit + v` stands at `i` and ends a line, `FieldEnd` finds exactly `v`. */
  lemma FieldEndFinds(s: string, i: nat, lit: string, v: string)
    requires StartsAt(s, i, lit + v) && IsLineValue(v) && EndsLine(s, i + |lit| + |v|)
    ensures FieldEnd(s, i, lit) == Some(i + |lit| + |v|) && s[i + |lit|..i + |lit| + |v|] == v
  {
    StartsAtConcat(s, i, lit, v);
    LineEndAfter(s, i + |lit|, v);
  }

  /** What `FieldEnd` finds is a non-empty line value after the literal. */
  lemma FieldEndShape(s: string, i: nat, lit: string)
    requires FieldEnd(s, i, lit).Some?
    ensures var e := FieldEnd(s, i, lit).value;
      i + |lit| < e <= |s| && StartsAt(s, i, lit + s[i + |lit|..e])
      && IsLineValue(s[i + |lit|..e]) && EndsLine(s, e)
  {
    var e := FieldEnd(s, i, lit).value;
    LineSlice(s, i + |lit|);
    StartsAtConcat(s, i, lit, s[i + |lit|..e]);
  }

  /** A literal that begins with a newline marks the end of the line before it. */
  lemma NewlineLedEndsLine(s: string, i: nat, t: string)
    requires |t| > 0 && t[0] == '\n' && StartsAt(s, i, t)
    ensures EndsLine(s, i)
  {
    assert s[i] == s[i..i + |t|][0];
  }

  /** Whatever `FieldRun` returns is a run of fields with that shape, ending where it says. */
  lemma {:induction false} FieldRunSound(s: string, i: nat, lits: seq<string>)
    requires |lits| > 0 && FieldRun(s, i, lits).Some?
    ensures var (vals, end) := FieldRun(s, i, lits).value;
      RunOk(s, i, lits, vals) && end == i + |Labelled(lits, vals)|
    decreases |lits|
  {
    var e := FieldEnd(s, i, lits[0]).value;
    FieldEndShape(s, i, lits[0]);
    var v := s[i + |lits[0]|..e];
    if |lits| == 1 {
      assert lits[1..] == [] && [v] + [] == [v];
      assert FieldRun(s, e, lits[1..]) == Some(([], e));
      assert FieldRun(s, i, lits) == Some(([v], e));
      assert Labelled(lits, [v]) == lits[0] + v + "";
    } else {
      FieldRunSound(s, e, lits[1..]);
      var (rest, end) := FieldRun(s, e, lits[1..]).value;
      assert FieldRun(s, i, lits) == Some(([v] + rest, end));
      assert ([v] + rest)[0] == v && ([v] + rest)[1..] == rest;
      RunOkJoin(s, i, lits, [v] + rest);
    }
  }

  /** A first field that ends its line, followed by a run of the other fields, is a run of all of them. */
  lemma RunOkJoin(s: string, i: nat, lits: seq<string>, vals: seq<string>)
    requires |lits| > 1 && |vals| == |lits|
    requires StartsAt(s, i, lits[0] + vals[0]) && IsLineValue(vals[0])
    requires RunOk(s, i + |lits[0] + vals[0]|, lits[1..], vals[1..])
    ensures RunOk(s, i, lits, vals)
    ensures |Labelled(lits, vals)| == |lits[0] + vals[0]| + |Labelled(lits[1..], vals[1..])|
  {
    LabelledHead(lits, vals);
    StartsAtConcat(s, i, lits[0] + vals[0], Labelled(lits[1..], vals[1..]));
  }

  /** The text of a run is its first literal and value, then the text of the rest. */
  lemma LabelledHead(lits: seq<string>, vals: seq<string>)
    requires |lits| > 0 && |vals| == |lits|
    ensures Labelled(lits, vals) == (lits[0] + vals[0]) + Labelled(lits[1..], vals[1..])
  {
  }

  /** After the first field, the text of a newline-led run begins with a newline. */
  lemma LabelledLed(lits: seq<string>, vals: seq<string>)
    requires |lits| > 1 && |vals| == |lits| && NewlineLed(lits)
    ensures var t := Labelled(lits[1..], vals[1..]); |t| > 0 && t[0] == '\n'
  {
    LabelledHead(lits[1..], vals[1..]);
    assert lits[1..][0] == lits[1];
  }

  /** A run of several fields is its first field, ending a line, followed by the run of the others. */
  lemma RunOkSplit(s: string, i: nat, lits: seq<string>, vals: seq<string>)
    requires |lits| > 1 && NewlineLed(lits) && RunOk(s, i, lits, vals)
    ensures StartsAt(s, i, lits[0] + vals[0]) && IsLineValue(vals[0])
    ensures EndsLine(s, i + |lits[0]| + |vals[0]|) && NewlineLed(lits[1..])
    ensures RunOk(s, i + |lits[0]| + |vals[0]|, lits[1..], vals[1..])
    ensures |Labelled(lits, vals)| == |lits[0]| + |vals[0]| + |Labelled(lits[1..], vals[1..])|
  {
    var head := lits[0] + vals[0];
    var tail := Labelled(lits[1..], vals[1..]);
    LabelledHead(lits, vals);
    StartsAtConcat(s, i, head, tail);
    LabelledLed(lits, vals);
    NewlineLedEndsLine(s, i + |head|, tail);
  }

  /** Wherever a run of fields has that shape, `FieldRun` returns exactly its values. */
  lemma {:induction false} FieldRunComplete(s: string, i: nat, lits: seq<string>, vals: seq<string>)
    requires |lits| > 0 && NewlineLed(lits) && RunOk(s, i, lits, vals)
    ensures FieldRun(s, i, lits) == Some((vals, i + |Labelled(lits, vals)|))
    decreases |lits|
  {
    if |lits| == 1 {
      LastFieldComplete(s, i, lits, vals);
    } else {
      RunOkSplit(s, i, lits, vals);
      FieldRunComplete(s, i + |lits[0]| + |vals[0]|, lits[1..], vals[1..]);
      FieldRunCons(s, i, lits, vals);
    }
  }

  /** Where `FieldRun` finds the fields after the first, it finds the first one in front of them. */
  lemma FieldRunCons(s: string, i: nat, lits: seq<string>, vals: seq<string>)
    requires |lits| > 1 && NewlineLed(lits) && RunOk(s, i, lits, vals)
    requires var e := i + |lits[0]| + |vals[0]|;
      FieldRun(s, e, lits[1..]) == Some((vals[1..], e + |Labelled(lits[1..], vals[1..])|))
    ensures FieldRun(s, i, lits) == Some((vals, i + |Labelled(lits, vals)|))
  {
    var e := i + |lits[0]| + |vals[0]|;
    var end := e + |Labelled(lits[1..], vals[1..])|;
    RunOkSplit(s, i, lits, vals);
    FieldEndFinds(s, i, lits[0], vals[0]);
    FieldRunStep(s, i, lits, vals[0], vals[1..], e, end);
    assert [vals[0]] + vals[1..] == vals;
  }

  /** One step of `FieldRun`: the first field, then the run of the others. */
  lemma FieldRunStep(s: string, i: nat, lits: seq<string>, v: string, rest: seq<string>, e: nat, end: nat)
    requires |lits| > 1
    requires FieldEnd(s, i, lits[0]) == Some(e) && s[i + |lits[0]|..e] == v
    requires FieldRun(s, e, lits[1..]) == Some((rest, end))
    ensures FieldRun(s, i, lits) == Some(([v] + rest, end))
  {
  }

  lemma LastFieldComplete(s: string, i: nat, lits: seq<string>, vals: seq<string>)
    requires |lits| == 1 && RunOk(s, i, lits, vals)
    ensures FieldRun(s, i, lits) == Some((vals, i + |Labelled(lits, vals)|))
  {
    assert Labelled(lits, vals) == lits[0] + vals[0] + "";
    FieldEndFinds(s, i, lits[0], vals[0]);
    assert [vals[0]] + [] == vals;
  }

  /** At a given start, `FieldRun` returns exactly the values and end of the run of fields standing there. */
  lemma FieldRunIff(s: string, i: nat, lits: seq<string>, vals: seq<string>, end: nat)
    requires |lits| > 0 && NewlineLed(lits)
    ensures FieldRun(s, i, lits) == Some((vals, end)) <==> RunOk(s, i, lits, vals) && end == i + |Labelled(lits, vals)|
  {
    if RunOk(s, i, lits, vals) {
      FieldRunComplete(s, i, lits, vals);
    }
    if FieldRun(s, i, lits) == Some((vals, end)) {
      FieldRunSound(s, i, lits);
    }
  }

  /** Four literals whose last three begin with a newline are newline-led. */
  lemma NewlineLedFour(l0: string, l1: string, l2: string, l3: string)
    requires |l1| > 0 && l1[0] == '\n' && |l2| > 0 && l2[0] == '\n' && |l3| > 0 && l3[0] == '\n'
    ensures NewlineLed([l0, l1, l2, l3])
  {
    assert NewlineLed([l3]);
    assert [l2, l3][1..] == [l3] && NewlineLed([l2, l3]);
    assert [l1, l2, l3][1..] == [l2, l3] && NewlineLed([l1, l2, l3]);
    assert [l0, l1, l2, l3][1..] == [l1, l2, l3];
  }

  /** Four values are line values exactly when each of them is. */
  lemma LineValuesFour(v0: string, v1: string, v2: string, v3: string)
    ensures LineValues([v0, v1, v2, v3]) <==> IsLineValue(v0) && IsLineValue(v1) && IsLineValue(v2) && IsLineValue(v3)
  {
    assert [v3][1..] == [] && (LineValues([v3]) <==> IsLineValue(v3));
    assert [v2, v3][1..] == [v3] && (LineValues([v2, v3]) <==> IsLineValue(v2) && LineValues([v3]));
    assert [v1, v2, v3][1..] == [v2, v3] && (LineValues([v1, v2, v3]) <==> IsLineValue(v1) && LineValues([v2, v3]));
    assert [v0, v1, v2, v3][1..] == [v1, v2, v3];
  }

  /** Four labelled fields, written out. */
  lemma LabelledFour(l0: string, l1: string, l2: string, l3: string, v0: string, v1: string, v2: string, v3: string)
    ensures Labelled([l0, l1, l2, l3], [v0, v1, v2, v3]) == (l0 + v0) + (l1 + v1) + (l2 + v2) + (l3 + v3)
  {
    assert [l3][1..] == [] && [v3][1..] == [];
    assert [l2, l3][1..] == [l3] && [v2, v3][1..] == [v3];
    assert [l1, l2, l3][1..] == [l2, l3] && [v1, v2, v3][1..] == [v2, v3];
    assert [l0, l1, l2, l3][1..] == [l1, l2, l3] && [v0, v1, v2, v3][1..] == [v1, v2, v3];
    var t := Labelled([l3], [v3]);
    assert t == l3 + v3 + Labelled([], []);
    var d := Labelled([l2, l3], [v2, v3]);
    assert d == l2 + v2 + t;
    var l := Labelled([l1, l2, l3], [v1, v2, v3]);
    assert l == l1 + v1 + d;
  }
}
