/**
 * The pattern of a "Revision sessions" email, run with `re.findall` and
 * without DOTALL:
 *
 *   (ES_.+?)\nGoogle Meet: (.+?)\nDate: (.+?)\nTime:(.+?)(?:\n|$)
 *
 * As in the live-session pattern, every group is the rest of its line. The
 * last lazy group stops at the first line end, and `(?:\n|$)` then takes
 * the newline when there is one. `findall` scans from the left, collects
 * each match and resumes the scan where the match ended, so the matches it
 * returns never overlap.
 */
module RevisionPattern {
  import opened Text
  import opened Regex
  import opened LineFields

  const SessionPrefix := "ES_"
  const MeetLabel := "\nGoogle Meet: "
  const DateLabel := "\nDate: "
  const TimeLabel := "\nTime:"

  /** The pattern's literals; the first one, "ES_", lies inside the first group. */
  const SessionLabels: seq<string> := [SessionPrefix, MeetLabel, DateLabel, TimeLabel]

  /** The four groups of one match, in the pattern's order; `session` starts with "ES_". */
  datatype RevisionSession = RevisionSession(session: string, link: string, date: string, time: string)

  /** A match: its groups and the index just after it. */
  datatype SessionMatch = SessionMatch(found: RevisionSession, end: nat)

  /** The text of the groups after the literals: the name after "ES_", then the three values. */
  function Values(x: RevisionSession): seq<string>
    requires |x.session| >= |SessionPrefix|
  {
    [x.session[|SessionPrefix|..], x.link, x.date, x.time]
  }

  /** `(?:\n|$)` at a line end `e`: the newline is taken when there is one. */
  function AfterLine(s: string, e: nat): (r: nat)
    requires e <= |s|
    ensures e <= r <= |s|
    ensures EndsLine(s, e) ==> s[e..r] == (if e < |s| then "\n" else "")
  {
    if e < |s| then e + 1 else e
  }

  /** The pattern matches at `p` with groups `m.found`, and the match ends at `m.end`. */
  ghost predicate SessionOk(s: string, p: nat, m: SessionMatch) {
    StartsAt(m.found.session, 0, SessionPrefix)
    && RunOk(s, p, SessionLabels, Values(m.found))
    && p + |Labelled(SessionLabels, Values(m.found))| <= |s|
    && m.end == AfterLine(s, p + |Labelled(SessionLabels, Values(m.found))|)
  }

  /** The match starting at `p`, if any. */
  function SessionAt(s: string, p: nat): (r: Option<SessionMatch>)
    ensures r.Some? ==> p < r.value.end <= |s|
  {
    match FieldRun(s, p, SessionLabels)
    case None => None
    case Some((vs, e)) =>
      Some(SessionMatch(RevisionSession(SessionPrefix + vs[0], vs[1], vs[2], vs[3]), AfterLine(s, e)))
  }

  /** At any start, the matcher returns exactly the match of the shape, and fails when there is none. */
  lemma SessionAtIff(s: string, p: nat, m: SessionMatch)
    ensures SessionAt(s, p) == Some(m) <==> SessionOk(s, p, m)
  {
    NewlineLedFour(SessionPrefix, MeetLabel, DateLabel, TimeLabel);
    var x := m.found;
    if SessionOk(s, p, m) {
      var e := p + |Labelled(SessionLabels, Values(x))|;
      FieldRunIff(s, p, SessionLabels, Values(x), e);
      assert x.session == SessionPrefix + x.session[|SessionPrefix|..];
    }
    if SessionAt(s, p) == Some(m) {
      var (vs, e) := FieldRun(s, p, SessionLabels).value;
      assert (SessionPrefix + vs[0])[|SessionPrefix|..] == vs[0];
      assert vs == Values(x);
      FieldRunIff(s, p, SessionLabels, vs, e);
    }
  }

  /** No match starts at any index in `lo..hi`. */
  predicate NoMatchIn(s: string, lo: nat, hi: nat) {
    forall q :: lo <= q < hi ==> SessionAt(s, q).None?
  }

  /** The scan for the next match: the first start, from `from` on, at which the pattern matches. */
  function NextMatch(s: string, from: nat): (r: Option<(nat, SessionMatch)>)
    requires from <= |s|
    ensures r.Some? ==> from <= r.value.0 < |s| && SessionAt(s, r.value.0) == Some(r.value.1)
    ensures r.Some? ==> NoMatchIn(s, from, r.value.0)
    ensures r.None? ==> NoMatchIn(s, from, |s| + 1)
  {
    var at := (p: nat) => SessionAt(s, p);
    match Shortest(from, |s|, at)
    case None =>
      assert forall q :: from <= q <= |s| ==> at(q) == SessionAt(s, q);
      None
    case Some((p, m)) =>
      assert forall q :: from <= q < p ==> at(q) == SessionAt(s, q);
      Some((p, m))
  }

  /**
   * `re.findall` from index `from`: each match paired with where it starts.
   * Matches come in document order, never overlap, and no match starts in
   * the gaps the scan passes over.
   */
  function Matches(s: string, from: nat): (ms: seq<(nat, SessionMatch)>)
    requires from <= |s|
    ensures forall k :: 0 <= k < |ms| ==> from <= ms[k].0 < ms[k].1.end <= |s| && SessionAt(s, ms[k].0) == Some(ms[k].1)
    ensures forall k :: 0 <= k < |ms| - 1 ==> ms[k].1.end <= ms[k + 1].0
    ensures |ms| == 0 ==> NoMatchIn(s, from, |s| + 1)
    ensures |ms| > 0 ==> NoMatchIn(s, from, ms[0].0)
    decreases |s| - from
  {
    match NextMatch(s, from)
    case None => []
    case Some((p, m)) => [(p, m)] + Matches(s, m.end)
  }

  /** The groups of every match `findall` collects, in order. */
  function Findall(s: string): (r: seq<RevisionSession>)
    ensures |r| == |Matches(s, 0)|
    ensures forall k :: 0 <= k < |r| ==> SessionAt(s, Matches(s, 0)[k].0).value.found == r[k]
  {
    var ms := Matches(s, 0);
    seq(|ms|, k requires 0 <= k < |ms| => ms[k].1.found)
  }

  /** Scanning on past a match finds no other match before the next one it returns. */
  lemma {:induction false} MatchesGaps(s: string, from: nat, k: nat)
    requires from <= |s| && k + 1 < |Matches(s, from)|
    ensures var ms := Matches(s, from); NoMatchIn(s, ms[k].1.end, ms[k + 1].0)
    decreases k
  {
    var ms := Matches(s, from);
    var rest := Matches(s, ms[0].1.end);
    assert ms == [ms[0]] + rest;
    if k > 0 {
      MatchesGaps(s, ms[0].1.end, k - 1);
    }
  }

  /** After the last match returned, no match starts anywhere in the rest of the text. */
  lemma {:induction false} MatchesTail(s: string, from: nat)
    requires from <= |s| && |Matches(s, from)| > 0
    ensures var ms := Matches(s, from); NoMatchIn(s, ms[|ms| - 1].1.end, |s| + 1)
    decreases |s| - from
  {
    var ms := Matches(s, from);
    var rest := Matches(s, ms[0].1.end);
    assert ms == [ms[0]] + rest;
    if |rest| > 0 {
      MatchesTail(s, ms[0].1.end);
    }
  }

  /** A match needs "ES_" to fit in the text, so it starts at an index of the text. */
  lemma SessionOkInside(s: string, p: nat, m: SessionMatch)
    requires SessionOk(s, p, m)
    ensures p < |s|
  {
    LabelledFour(SessionPrefix, MeetLabel, DateLabel, TimeLabel,
                 m.found.session[|SessionPrefix|..], m.found.link, m.found.date, m.found.time);
  }

  /** `findall` returns nothing exactly when no part of the body has the pattern's shape. */
  lemma FindallEmpty(s: string)
    ensures Findall(s) == [] <==> forall p: nat, m: SessionMatch :: !SessionOk(s, p, m)
  {
    var ms := Matches(s, 0);
    if |ms| == 0 {
      forall p: nat, m: SessionMatch ensures !SessionOk(s, p, m) {
        SessionAtIff(s, p, m);
        if p <= |s| {
          assert SessionAt(s, p).None?;
        } else if SessionOk(s, p, m) {
          SessionOkInside(s, p, m);
        }
      }
    } else {
      assert |Findall(s)| > 0;
      SessionAtIff(s, ms[0].0, ms[0].1);
    }
  }

  /** A well-formed set of groups: "ES_" and then non-empty one-line values. */
  predicate ValidSession(x: RevisionSession) {
    StartsAt(x.session, 0, SessionPrefix) && IsLineValue(x.session[|SessionPrefix|..])
    && IsLineValue(x.link) && IsLineValue(x.date) && IsLineValue(x.time)
  }

  /** Every session `findall` returns is the groups of a match at its start, so it is well formed. */
  lemma FindallSound(s: string, k: nat)
    requires k < |Findall(s)|
    ensures var ms := Matches(s, 0);
      ms[k].1.found == Findall(s)[k] && SessionOk(s, ms[k].0, ms[k].1) && ValidSession(Findall(s)[k])
  {
    var ms := Matches(s, 0);
    SessionAtIff(s, ms[k].0, ms[k].1);
    var vs := Values(ms[k].1.found);
    LineValuesFour(vs[0], vs[1], vs[2], vs[3]);
  }

  /** The text of one session as the email lays it out, with the newline that ends it. */
  function SessionText(x: RevisionSession): string {
    x.session + MeetLabel + x.link + DateLabel + x.date + TimeLabel + x.time + "\n"
  }

  /** The text of several sessions, one after the other. */
  function SessionsText(xs: seq<RevisionSession>): string {
    if xs == [] then "" else SessionText(xs[0]) + SessionsText(xs[1..])
  }

  /** A well-formed session laid out at `p`, followed by anything, is a match there. */
  lemma SessionTextMatches(pre: string, x: RevisionSession, post: string)
    requires ValidSession(x)
    ensures SessionAt(pre + SessionText(x) + post, |pre|) == Some(SessionMatch(x, |pre| + |SessionText(x)|))
  {
    var s := pre + SessionText(x) + post;
    var vs := Values(x);
    var body := Labelled(SessionLabels, vs);
    LabelledFour(SessionPrefix, MeetLabel, DateLabel, TimeLabel, vs[0], vs[1], vs[2], vs[3]);
    assert x.session == SessionPrefix + vs[0];
    assert SessionText(x) == body + "\n";
    assert s == pre + body + ("\n" + post);
    assert s[|pre|..|pre| + |body|] == body;
    assert s[|pre| + |body|] == '\n';
    LineValuesFour(vs[0], vs[1], vs[2], vs[3]);
    SessionAtIff(s, |pre|, SessionMatch(x, |pre| + |SessionText(x)|));
  }

  /** Past the end of the text there is nothing left to find. */
  lemma MatchesAtEnd(s: string)
    ensures Matches(s, |s|) == []
  {
  }

  /** Where a match starts right at the scan's position, the scan returns it and resumes at its end. */
  lemma MatchesFirst(s: string, from: nat, m: SessionMatch)
    requires from <= |s| && SessionAt(s, from) == Some(m)
    ensures Matches(s, from) == [(from, m)] + Matches(s, m.end)
  {
    var at := (p: nat) => SessionAt(s, p);
    assert at(from) == Some(m);
    assert NextMatch(s, from) == Some((from, m));
  }

  /** The scan's matches carry the sessions `xs`, one each, in order. */
  predicate FoundAll(ms: seq<(nat, SessionMatch)>, xs: seq<RevisionSession>) {
    |ms| == |xs| && forall k :: 0 <= k < |xs| ==> ms[k].1.found == xs[k]
  }

  /** A match carrying the first session, in front of matches carrying the others, carries them all. */
  lemma FoundAllCons(p: nat, m: SessionMatch, ms: seq<(nat, SessionMatch)>, xs: seq<RevisionSession>)
    requires |xs| > 0 && m.found == xs[0] && FoundAll(ms, xs[1..])
    ensures FoundAll([(p, m)] + ms, xs)
  {
    forall k | 0 <= k < |xs| ensures ([(p, m)] + ms)[k].1.found == xs[k] {
      if k > 0 {
        assert ([(p, m)] + ms)[k] == ms[k - 1] && xs[k] == xs[1..][k - 1];
      }
    }
  }

  /** Scanning text that holds well-formed sessions one after the other finds each of them, in order. */
  lemma {:induction false} MatchesOfText(pre: string, xs: seq<RevisionSession>)
    requires forall k :: 0 <= k < |xs| ==> ValidSession(xs[k])
    ensures FoundAll(Matches(pre + SessionsText(xs), |pre|), xs)
    decreases |xs|
  {
    if xs == [] {
      assert pre + SessionsText(xs) == pre;
      MatchesAtEnd(pre);
    } else {
      var s := pre + SessionsText(xs);
      var pre' := pre + SessionText(xs[0]);
      var m := SessionMatch(xs[0], |pre| + |SessionText(xs[0])|);
      SessionsTextFirst(pre, xs);
      assert m.end == |pre'| && s == pre' + SessionsText(xs[1..]);
      MatchesOfText(pre', xs[1..]);
      MatchesFirst(s, |pre|, m);
      FoundAllCons(|pre|, m, Matches(s, m.end), xs);
    }
  }

  /** The first of several sessions laid out after `pre` is a match there, and the others follow it. */
  lemma SessionsTextFirst(pre: string, xs: seq<RevisionSession>)
    requires |xs| > 0 && ValidSession(xs[0])
    ensures pre + SessionsText(xs) == (pre + SessionText(xs[0])) + SessionsText(xs[1..])
    ensures SessionAt(pre + SessionsText(xs), |pre|) == Some(SessionMatch(xs[0], |pre| + |SessionText(xs[0])|))
  {
    var a, b := SessionText(xs[0]), SessionsText(xs[1..]);
    assert SessionsText(xs) == a + b;
    ConcatAssoc(pre, a, b);
    SessionTextMatches(pre, xs[0], b);
  }

  /** `Findall` lists exactly the groups of the matches the scan returns. */
  lemma FindallOf(s: string, xs: seq<RevisionSession>)
    requires FoundAll(Matches(s, 0), xs)
    ensures Findall(s) == xs
  {
  }

  /** Round trip: `findall` over the sessions' text gives back exactly those sessions, in order. */
  lemma FindallRoundTrip(xs: seq<RevisionSession>)
    requires forall k :: 0 <= k < |xs| ==> ValidSession(xs[k])
    ensures Findall(SessionsText(xs)) == xs
  {
    var t := SessionsText(xs);
    MatchesOfText("", xs);
    EmptyPrefix(t);
    FindallOf(t, xs);
  }
}
