/** What the formatted message promises, for every subject and body. */
module Properties {
  import opened Text
  import opened Regex
  import opened Notification
  import LetterPattern
  import LivePattern
  import RevisionPattern

  // Which branch renders the message.

  /** A subject that names no kind gets the generic message, whatever the body holds. */
  lemma UnclassifiedIsGeneric(subject: string, body: string)
    requires !Contains(subject, ContentMarker) && !Contains(subject, LiveMarker)
    requires !Contains(subject, DeadlineMarker) && !Contains(subject, RevisionMarker)
    ensures Format(subject, body)
      == "\U{1F4EC} <b>" + subject + "</b>\n\n" + body[..if |body| < 200 then |body| else 200] + "..."
  {
    assert forall i :: 0 <= i < |Markers| ==> !Contains(subject, Markers[i].0);
  }

  /**
   * A subject with "Content released" is rendered from the leftmost letter
   * shape ending in "Warm Regards", split there as the engine tries first,
   * whatever other phrases the subject holds.
   */
  lemma ReleasedRenders(subject: string, body: string, p: nat, t: LetterPattern.Cut)
    requires Contains(subject, ContentMarker)
    requires LetterPattern.LetterOk(body, LetterPattern.WarmRegards, p, t)
    ensures exists q: nat, u: LetterPattern.Cut :: q <= p
              && LetterPattern.FirstMatch(body, LetterPattern.WarmRegards, q, u)
              && Format(subject, body) == ReleasedNotice(LetterPattern.Groups(body, LetterPattern.WarmRegards, q, u))
  {
    var closer := LetterPattern.WarmRegards;
    LetterPattern.ExtractLetterFails(body, closer);
    var l := LetterPattern.ExtractLetter(body, closer).value;
    LetterPattern.ExtractLetterLeftmost(body, closer, l);
    var q: nat, u: LetterPattern.Cut :| LetterPattern.FirstMatch(body, closer, q, u) && l == LetterPattern.Groups(body, closer, q, u);
    LetterPattern.FirstMatchLeftmost(body, closer, q, u, p, t);
  }

  /**
   * A subject with "Content released" whose body has no letter shape gets the
   * generic message: no other kind's pattern is tried.
   */
  lemma ReleasedFallsBack(subject: string, body: string)
    requires Contains(subject, ContentMarker)
    requires forall p: nat, t: LetterPattern.Cut :: !LetterPattern.LetterOk(body, LetterPattern.WarmRegards, p, t)
    ensures Format(subject, body) == GenericNotice(subject, body)
  {
    LetterPattern.ExtractLetterFails(body, LetterPattern.WarmRegards);
  }

  /** The live-session branch renders the groups of the leftmost block of labelled lines. */
  lemma LiveRenders(subject: string, body: string, p: nat, f: LivePattern.LiveDetails)
    requires !Contains(subject, ContentMarker) && Contains(subject, LiveMarker)
    requires LivePattern.LiveOk(body, p, f)
    ensures exists q: nat, g: LivePattern.LiveDetails :: q <= p && LivePattern.LiveOk(body, q, g)
              && (forall q': nat, g': LivePattern.LiveDetails :: q' < q ==> !LivePattern.LiveOk(body, q', g'))
              && Format(subject, body) == LiveNotice(g)
  {
    LivePattern.ExtractLiveFails(body);
    var g := LivePattern.ExtractLive(body).value;
    LivePattern.ExtractLiveLeftmost(body, g);
    var q: nat :| LivePattern.LiveOk(body, q, g)
                  && forall q': nat, g': LivePattern.LiveDetails :: q' < q ==> !LivePattern.LiveOk(body, q', g');
    assert q <= p;
  }

  /** A live-session subject whose body has no block of labelled lines gets the generic message. */
  lemma LiveFallsBack(subject: string, body: string)
    requires !Contains(subject, ContentMarker) && Contains(subject, LiveMarker)
    requires forall p: nat, f: LivePattern.LiveDetails :: !LivePattern.LiveOk(body, p, f)
    ensures Format(subject, body) == GenericNotice(subject, body)
  {
    LivePattern.ExtractLiveFails(body);
  }

  /** The deadline branch renders the leftmost letter shape ending in "Regards", split there as the engine tries first. */
  lemma DeadlineRenders(subject: string, body: string, p: nat, t: LetterPattern.Cut)
    requires !Contains(subject, ContentMarker) && !Contains(subject, LiveMarker) && Contains(subject, DeadlineMarker)
    requires LetterPattern.LetterOk(body, LetterPattern.Regards, p, t)
    ensures exists q: nat, u: LetterPattern.Cut :: q <= p
              && LetterPattern.FirstMatch(body, LetterPattern.Regards, q, u)
              && Format(subject, body) == DeadlineNotice(LetterPattern.Groups(body, LetterPattern.Regards, q, u))
  {
    var closer := LetterPattern.Regards;
    LetterPattern.ExtractLetterFails(body, closer);
    var l := LetterPattern.ExtractLetter(body, closer).value;
    DeadlineBranch(subject, body, l);
    LetterPattern.ExtractLetterLeftmost(body, closer, l);
    var q: nat, u: LetterPattern.Cut :| LetterPattern.FirstMatch(body, closer, q, u) && l == LetterPattern.Groups(body, closer, q, u);
    LetterPattern.FirstMatchLeftmost(body, closer, q, u, p, t);
  }

  /** With a deadline subject, the extracted letter is what the message renders. */
  lemma DeadlineBranch(subject: string, body: string, l: LetterPattern.Letter)
    requires !Contains(subject, ContentMarker) && !Contains(subject, LiveMarker) && Contains(subject, DeadlineMarker)
    requires LetterPattern.ExtractLetter(body, LetterPattern.Regards) == Some(l)
    ensures Format(subject, body) == DeadlineNotice(l)
  {
    assert Classify(subject) == DeadlineReminder;
  }

  /** A deadline subject whose body has no letter shape gets the generic message. */
  lemma DeadlineFallsBack(subject: string, body: string)
    requires !Contains(subject, ContentMarker) && !Contains(subject, LiveMarker) && Contains(subject, DeadlineMarker)
    requires forall p: nat, t: LetterPattern.Cut :: !LetterPattern.LetterOk(body, LetterPattern.Regards, p, t)
    ensures Format(subject, body) == GenericNotice(subject, body)
  {
    LetterPattern.ExtractLetterFails(body, LetterPattern.Regards);
  }

  /** The revision branch renders every session `findall` returns, when it returns any. */
  lemma RevisionRenders(subject: string, body: string, p: nat, m: RevisionPattern.SessionMatch)
    requires !Contains(subject, ContentMarker) && !Contains(subject, LiveMarker)
    requires !Contains(subject, DeadlineMarker) && Contains(subject, RevisionMarker)
    requires RevisionPattern.SessionOk(body, p, m)
    ensures |RevisionPattern.Findall(body)| > 0
    ensures Format(subject, body) == RevisionNotice(RevisionPattern.Findall(body))
  {
    RevisionPattern.FindallEmpty(body);
    RevisionBranch(subject, body);
  }

  /** With a revision subject, the sessions `findall` returns, when there are any, are what the message renders. */
  lemma RevisionBranch(subject: string, body: string)
    requires !Contains(subject, ContentMarker) && !Contains(subject, LiveMarker)
    requires !Contains(subject, DeadlineMarker) && Contains(subject, RevisionMarker)
    requires |RevisionPattern.Findall(body)| > 0
    ensures Format(subject, body) == RevisionNotice(RevisionPattern.Findall(body))
  {
    assert Classify(subject) == RevisionSessions;
  }

  /** A revision subject whose body has no session block gets the generic message. */
  lemma RevisionFallsBack(subject: string, body: string)
    requires !Contains(subject, ContentMarker) && !Contains(subject, LiveMarker)
    requires !Contains(subject, DeadlineMarker) && Contains(subject, RevisionMarker)
    requires forall p: nat, m: RevisionPattern.SessionMatch :: !RevisionPattern.SessionOk(body, p, m)
    ensures Format(subject, body) == GenericNotice(subject, body)
  {
    RevisionPattern.FindallEmpty(body);
  }

  // What the templates produce.

  /**
   * The generic message is the subject in bold, a blank line, a prefix of the
   * body of length min(200, |body|), and "...".
   */
  lemma GenericSnippet(subject: string, body: string)
    ensures var r := GenericNotice(subject, body);
      var head := "\U{1F4EC} <b>" + subject + "</b>\n\n";
      |r| == |head| + Min(200, |body|) + 3 && r[..|head|] == head && EndsWith(r, "...")
      && r[|head|..|r| - 3] <= body
  {
    var r := GenericNotice(subject, body);
    var head := "\U{1F4EC} <b>" + subject + "</b>\n\n";
    var n := Min(SnippetLength, |body|);
    assert r == head + body[..n] + "...";
    assert r[|head|..|r| - 3] == body[..n];
  }

  /** The titles are one line each. */
  lemma TitlesHaveNoNewline()
    ensures NoNewline(LiveTitle) && NoNewline(RevisionTitle) && NoNewline(ReleasedTitle) && NoNewline(DeadlineTitle)
  {
  }

  /** The field prefixes are newline-free. */
  lemma TemplateLinesHaveNoNewline()
    ensures NoNewline(CoursePrefix) && NoNewline(DatePrefix) && NoNewline(TimePrefix) && NoNewline(LinkPrefix)
    ensures NoNewline(BookmarkPrefix) && NoNewline(WeekPrefix) && NoNewline(RevisionPattern.SessionPrefix)
  {
  }

  /** The two letter messages open with their title, a blank line and the week line. */
  lemma LetterNoticeOpens(l: LetterPattern.Letter)
    requires forall i :: 0 <= i < |l.week| ==> IsDigit(l.week[i])
    ensures [ReleasedTitle, "", WeekPrefix + l.week] <= Lines(ReleasedNotice(l))
    ensures [DeadlineTitle, "", WeekPrefix + l.week] <= Lines(DeadlineNotice(l))
  {
    TitlesHaveNoNewline();
    TemplateLinesHaveNoNewline();
    NoNewlineConcat(WeekPrefix, l.week);
    var w := WeekPrefix + l.week;
    var rest := CoursePrefix + l.course + "\n\n" + l.content;
    LetterLinesSplit(l, w, rest);
    OpeningLines(ReleasedTitle, w, rest + "\n\n" + Reminder);
    OpeningLines(DeadlineTitle, w, rest);
  }

  /** Both letter messages hold the week line, then the course and the content. */
  lemma LetterLinesSplit(l: LetterPattern.Letter, w: string, rest: string)
    requires w == WeekPrefix + l.week && rest == CoursePrefix + l.course + "\n\n" + l.content
    ensures ReleasedNotice(l) == ReleasedTitle + "\n\n" + (w + "\n" + (rest + "\n\n" + Reminder))
    ensures DeadlineNotice(l) == DeadlineTitle + "\n\n" + (w + "\n" + rest)
  {
    assert LetterLines(l) == w + "\n" + rest;
  }

  /** The released-content message closes with the reminder. */
  lemma ReleasedNoticeCloses(l: LetterPattern.Letter)
    ensures EndsWith(ReleasedNotice(l), Reminder)
  {
    ConcatEndsWith(ReleasedTitle + "\n\n" + LetterLines(l) + "\n\n", Reminder);
  }

  /** The deadline message closes with the content itself, with no reminder after it. */
  lemma DeadlineNoticeCloses(l: LetterPattern.Letter)
    ensures EndsWith(DeadlineNotice(l), l.content)
  {
    var h, p := DeadlineTitle + "\n\n", WeekPrefix + l.week + "\n" + CoursePrefix + l.course + "\n\n";
    assert DeadlineNotice(l) == h + (p + l.content);
    ConcatAssoc(h, p, l.content);
    ConcatEndsWith(h + p, l.content);
  }

  /** A title, a blank line and one more newline-free line open the lines of the text. */
  lemma OpeningLines(t: string, w: string, r: string)
    requires NoNewline(t) && NoNewline(w)
    ensures [t, "", w] <= Lines(t + "\n\n" + (w + "\n" + r))
  {
    TitleLines(t, w + "\n" + r);
    LinesCons(w, r);
    var ls := Lines(r);
    assert [t, ""] + ([w] + ls) == [t, "", w] + ls;
  }

  lemma ConcatEndsWith(a: string, b: string)
    ensures EndsWith(a + b, b)
  {
    assert (a + b)[|a|..] == b;
  }

  /**
   * The live-session message, line by line: the title, a blank line, then
   * the course, date, time and link, in that order and each on its own line.
   */
  lemma LiveNoticeLines(f: LivePattern.LiveDetails)
    requires NoNewline(f.course) && NoNewline(f.link) && NoNewline(f.date) && NoNewline(f.time)
    ensures Lines(LiveNotice(f))
      == [LiveTitle, "", CoursePrefix + f.course, DatePrefix + f.date, TimePrefix + f.time, LinkPrefix + f.link]
  {
    TitlesHaveNoNewline();
    TemplateLinesHaveNoNewline();
    var c, d, t, l := CoursePrefix + f.course, DatePrefix + f.date, TimePrefix + f.time, LinkPrefix + f.link;
    NoNewlineConcat(CoursePrefix, f.course);
    NoNewlineConcat(DatePrefix, f.date);
    NoNewlineConcat(TimePrefix, f.time);
    NoNewlineConcat(LinkPrefix, f.link);
    assert LiveNotice(f) == LiveTitle + "\n" + ("" + "\n" + (c + "\n" + (d + "\n" + (t + "\n" + l))));
    LinesOfSix(LiveTitle, "", c, d, t, l);
  }

  /** Six newline-free lines joined by newlines split back into those six lines. */
  lemma LinesOfSix(a: string, b: string, c: string, d: string, e: string, g: string)
    requires NoNewline(a) && NoNewline(b) && NoNewline(c) && NoNewline(d) && NoNewline(e) && NoNewline(g)
    ensures Lines(a + "\n" + (b + "\n" + (c + "\n" + (d + "\n" + (e + "\n" + g))))) == [a, b, c, d, e, g]
  {
    LinesOfFiveCons(a, b, c, d, e, g);
    LinesOne(g);
    SnocFive(a, b, c, d, e, g);
  }

  lemma SnocFive<T>(a: T, b: T, c: T, d: T, e: T, g: T)
    ensures [a, b, c, d, e] + [g] == [a, b, c, d, e, g]
  {
  }

  /** A live-session subject over a body that opens with the labelled lines renders exactly those values. */
  lemma LiveRoundTrip(subject: string, f: LivePattern.LiveDetails, rest: string)
    requires !Contains(subject, ContentMarker) && Contains(subject, LiveMarker)
    requires IsLineValue(f.course) && IsLineValue(f.link) && IsLineValue(f.date) && IsLineValue(f.time)
    requires rest == [] || rest[0] == '\n'
    ensures Format(subject, LivePattern.LiveBlock(f) + rest) == LiveNotice(f)
  {
    LivePattern.ExtractLiveRoundTrip(f, rest);
  }

  /** The five lines one session's block makes: name, date, time, link and a blank line. */
  function BlockLines(x: RevisionPattern.RevisionSession): seq<string> {
    [BookmarkPrefix + x.session, DatePrefix + x.date, TimePrefix + x.time, LinkPrefix + x.link, ""]
  }

  /** The lines of the blocks of `xs`, one block after the other. */
  function SessionLines(xs: seq<RevisionPattern.RevisionSession>): (r: seq<string>)
    ensures |r| == 5 * |xs|
  {
    if xs == [] then [] else BlockLines(xs[0]) + SessionLines(xs[1..])
  }

  /** Block `k` of the lines is exactly the five lines of session `k`. */
  lemma {:induction false} SessionLinesAt(xs: seq<RevisionPattern.RevisionSession>, k: nat)
    requires k < |xs|
    ensures SessionLines(xs)[5 * k..5 * k + 5] == BlockLines(xs[k])
    decreases k
  {
    assert SessionLines(xs) == BlockLines(xs[0]) + SessionLines(xs[1..]);
    if k > 0 {
      SessionLinesAt(xs[1..], k - 1);
    }
  }

  /** Five newline-free lines, each ended by a newline, split off whole in front of any text. */
  lemma LinesOfFiveCons(a: string, b: string, c: string, d: string, e: string, r: string)
    requires NoNewline(a) && NoNewline(b) && NoNewline(c) && NoNewline(d) && NoNewline(e)
    ensures Lines(a + "\n" + (b + "\n" + (c + "\n" + (d + "\n" + (e + "\n" + r))))) == [a, b, c, d, e] + Lines(r)
  {
    var x4 := e + "\n" + r;
    var x3 := d + "\n" + x4;
    var x2 := c + "\n" + x3;
    var x1 := b + "\n" + x2;
    LinesCons(e, r);
    LinesCons(d, x4);
    LinesCons(c, x3);
    LinesCons(b, x2);
    LinesCons(a, x1);
    ConsFive(a, b, c, d, e, Lines(r));
  }

  /** Five elements put in front one at a time are the five-element display in front. */
  lemma ConsFive<T>(a: T, b: T, c: T, d: T, e: T, r: seq<T>)
    ensures [a] + ([b] + ([c] + ([d] + ([e] + r)))) == [a, b, c, d, e] + r
  {
  }

  /** The block of a well-formed session splits into its five lines in front of whatever follows. */
  lemma SessionBlockLines(x: RevisionPattern.RevisionSession, r: string)
    requires RevisionPattern.ValidSession(x)
    ensures Lines(SessionBlock(x) + r) == BlockLines(x) + Lines(r)
  {
    TemplateLinesHaveNoNewline();
    var name := x.session[|RevisionPattern.SessionPrefix|..];
    assert x.session == RevisionPattern.SessionPrefix + name;
    NoNewlineConcat(RevisionPattern.SessionPrefix, name);
    var ls := BlockLines(x);
    NoNewlineConcat(BookmarkPrefix, x.session);
    NoNewlineConcat(DatePrefix, x.date);
    NoNewlineConcat(TimePrefix, x.time);
    NoNewlineConcat(LinkPrefix, x.link);
    assert SessionBlock(x) + r == ls[0] + "\n" + (ls[1] + "\n" + (ls[2] + "\n" + (ls[3] + "\n" + ("" + "\n" + r))));
    LinesOfFiveCons(ls[0], ls[1], ls[2], ls[3], "", r);
  }

  /** The blocks of well-formed sessions split into five lines per session, and the empty line after them. */
  lemma {:induction false} SessionBlocksLines(xs: seq<RevisionPattern.RevisionSession>)
    requires forall k :: 0 <= k < |xs| ==> RevisionPattern.ValidSession(xs[k])
    ensures Lines(SessionBlocks(xs)) == SessionLines(xs) + [""]
    decreases |xs|
  {
    if xs == [] {
      LinesOne("");
    } else {
      SessionBlocksLines(xs[1..]);
      SessionBlockLines(xs[0], SessionBlocks(xs[1..]));
    }
  }

  /**
   * The revision message, line by line: the title, a blank line, five lines
   * per session in the order given, and the empty line after the final
   * newline.
   */
  lemma RevisionNoticeLines(xs: seq<RevisionPattern.RevisionSession>)
    requires forall k :: 0 <= k < |xs| ==> RevisionPattern.ValidSession(xs[k])
    ensures Lines(RevisionNotice(xs)) == [RevisionTitle, ""] + SessionLines(xs) + [""]
  {
    TitlesHaveNoNewline();
    SessionBlocksLines(xs);
    TitleLinesAppend(RevisionTitle, SessionBlocks(xs), SessionLines(xs));
  }

  /** A title and a blank line in front of text whose lines end in an empty one. */
  lemma TitleLinesAppend(t: string, r: string, b: seq<string>)
    requires NoNewline(t) && Lines(r) == b + [""]
    ensures Lines(t + "\n\n" + r) == [t, ""] + b + [""]
  {
    TitleLines(t, r);
    ConcatAssoc([t, ""], b, [""]);
  }

  /** A newline-free title followed by a blank line splits into those two lines in front of the rest. */
  lemma TitleLines(t: string, r: string)
    requires NoNewline(t)
    ensures Lines(t + "\n\n" + r) == [t, ""] + Lines(r)
  {
    assert t + "\n\n" + r == t + "\n" + ("" + "\n" + r);
    LinesCons("", r);
    LinesCons(t, "" + "\n" + r);
  }

  /**
   * A revision subject over a body with session blocks renders one block of
   * lines per session `findall` returns, in document order.
   */
  lemma RevisionLines(subject: string, body: string)
    requires !Contains(subject, ContentMarker) && !Contains(subject, LiveMarker)
    requires !Contains(subject, DeadlineMarker) && Contains(subject, RevisionMarker)
    requires |RevisionPattern.Findall(body)| > 0
    ensures var xs := RevisionPattern.Findall(body);
      Lines(Format(subject, body)) == [RevisionTitle, ""] + SessionLines(xs) + [""]
      && forall k :: 0 <= k < |xs| ==> SessionLines(xs)[5 * k..5 * k + 5] == BlockLines(xs[k])
  {
    var xs := RevisionPattern.Findall(body);
    RevisionBranch(subject, body);
    forall k | 0 <= k < |xs| ensures RevisionPattern.ValidSession(xs[k]) {
      RevisionPattern.FindallSound(body, k);
    }
    RevisionNoticeLines(xs);
    forall k | 0 <= k < |xs| ensures SessionLines(xs)[5 * k..5 * k + 5] == BlockLines(xs[k]) {
      SessionLinesAt(xs, k);
    }
  }

  /** A revision subject over the sessions' own text renders exactly those sessions, in order. */
  lemma RevisionRoundTrip(subject: string, xs: seq<RevisionPattern.RevisionSession>)
    requires !Contains(subject, ContentMarker) && !Contains(subject, LiveMarker)
    requires !Contains(subject, DeadlineMarker) && Contains(subject, RevisionMarker)
    requires |xs| > 0 && forall k :: 0 <= k < |xs| ==> RevisionPattern.ValidSession(xs[k])
    ensures Format(subject, RevisionPattern.SessionsText(xs)) == RevisionNotice(xs)
  {
    RevisionPattern.FindallRoundTrip(xs);
    RevisionBranch(subject, RevisionPattern.SessionsText(xs));
  }
}
