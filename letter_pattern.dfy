/**
 * The pattern shared by the "Content released" and "Assignment Deadline
 * Reminder" emails, matched with DOTALL:
 *
 *   Week (\d+).+?(\w+(?:\s+\w+)?)\s*\n\nDear Learner,\s*\n\n(.+?)\s*\n\n<closer>
 *
 * where <closer> is "Warm Regards" for released content and "Regards" for
 * deadline reminders. The matcher below follows the backtracking order of
 * Python's engine quantifier by quantifier; `LetterOk` states the same pattern
 * as a shape of the body, with no order.
 */
module LetterPattern {
  import opened Text
  import opened Regex

  const WeekLabel := "Week "
  const Salutation := "\n\nDear Learner,"
  const WarmRegards := "Warm Regards"
  const Regards := "Regards"

  /** The three groups of a match. */
  datatype Letter = Letter(week: string, course: string, content: string)

  /**
   * Where one match splits the body: the week digits end at `weekEnd`; the
   * course runs from `courseStart` to `courseEnd`, its first word ends at
   * `wordEnd` and its optional second word starts at `word2Start` (both equal
   * `courseEnd` for a one-word course); "\n\nDear Learner," starts at
   * `salutation`; the blank line before the content starts at `blank`; the
   * content ends at `contentEnd`; the blank line before the closer starts at
   * `closing`.
   */
  datatype Cut = Cut(weekEnd: nat, courseStart: nat, wordEnd: nat, word2Start: nat,
                     courseEnd: nat, salutation: nat, blank: nat, contentEnd: nat, closing: nat)

  const NoCut := Cut(0, 0, 0, 0, 0, 0, 0, 0, 0)

  // The shape of a match, from its end back to its start.

  /** `\s*\n\n<closer>` matches at `c`. */
  ghost predicate ClosingOk(s: string, closer: string, c: nat, t: Cut) {
    All(s, c, t.closing, IsSpace) && StartsAt(s, t.closing, "\n\n" + closer)
  }

  /** `(.+?)\s*\n\n<closer>` matches at `m`. */
  ghost predicate ContentOk(s: string, closer: string, m: nat, t: Cut) {
    m < t.contentEnd && ClosingOk(s, closer, t.contentEnd, t)
  }

  /** `\s*\n\n(.+?)...` matches right after "Dear Learner,", at `a`. */
  ghost predicate GreetingOk(s: string, closer: string, a: nat, t: Cut) {
    All(s, a, t.blank, IsSpace) && StartsAt(s, t.blank, "\n\n") && ContentOk(s, closer, t.blank + 2, t)
  }

  /** `\s*\n\nDear Learner,...` matches right after the course, at `e`. */
  ghost predicate SalutationOk(s: string, closer: string, e: nat, t: Cut) {
    All(s, e, t.salutation, IsSpace) && StartsAt(s, t.salutation, Salutation)
    && GreetingOk(s, closer, t.salutation + |Salutation|, t)
  }

  /** The second course word (`\w+`) starts at `g`, and the rest follows it. */
  ghost predicate SecondWordOk(s: string, closer: string, g: nat, t: Cut) {
    g < t.courseEnd && All(s, g, t.courseEnd, IsWordChar) && SalutationOk(s, closer, t.courseEnd, t)
  }

  /** `(?:\s+\w+)?` and the rest match after the first course word, at `j`. */
  ghost predicate CourseTailOk(s: string, closer: string, j: nat, t: Cut) {
    (j < t.word2Start && All(s, j, t.word2Start, IsSpace) && SecondWordOk(s, closer, t.word2Start, t))
    || (t.word2Start == j && t.courseEnd == j && SalutationOk(s, closer, j, t))
  }

  /** The course group `(\w+(?:\s+\w+)?)` and the rest match at `t.courseStart`. */
  ghost predicate CourseOk(s: string, closer: string, t: Cut) {
    t.courseStart < t.wordEnd && All(s, t.courseStart, t.wordEnd, IsWordChar)
    && CourseTailOk(s, closer, t.wordEnd, t)
  }

  /** The whole pattern matches at `p`, split as `t` says. */
  ghost predicate LetterOk(s: string, closer: string, p: nat, t: Cut) {
    StartsAt(s, p, WeekLabel) && p + |WeekLabel| < t.weekEnd
    && All(s, p + |WeekLabel|, t.weekEnd, IsDigit)
    && t.weekEnd < t.courseStart && CourseOk(s, closer, t)
  }

  /** The groups of a match at `p` split as `t`. */
  function Groups(s: string, closer: string, p: nat, t: Cut): (l: Letter)
    requires LetterOk(s, closer, p, t)
    ensures |l.week| > 0 && forall i :: 0 <= i < |l.week| ==> IsDigit(l.week[i])
    ensures |l.course| > 0 && |l.content| > 0
  {
    Letter(s[p + |WeekLabel|..t.weekEnd], s[t.courseStart..t.courseEnd], s[t.blank + 2..t.contentEnd])
  }

  // The matcher: one function per quantifier, innermost first.

  function ClosingAt(s: string, closer: string, k: nat): (r: Option<Cut>)
    ensures r.Some? <==> StartsAt(s, k, "\n\n" + closer)
    ensures r.Some? ==> r.value.closing == k
  {
    if StartsAt(s, k, "\n\n" + closer) then Some(NoCut.(closing := k)) else None
  }

  /** `\s*` (greedy) then "\n\n" and the closer. */
  function ClosingFrom(s: string, closer: string, c: nat): (r: Option<Cut>)
    ensures r.Some? ==> ClosingOk(s, closer, c, r.value)
  {
    if c > |s| then None
    else match Longest(c, RunEnd(s, c, IsSpace), k => ClosingAt(s, closer, k))
      case Some((_, t)) => Some(t)
      case None => None
  }

  /** `(.+?)` (lazy, any character): the content ends at the first place the closing matches. */
  function ContentFrom(s: string, closer: string, m: nat): (r: Option<Cut>)
    ensures r.Some? ==> ContentOk(s, closer, m, r.value)
  {
    match Shortest(m + 1, |s|, c => ClosingFrom(s, closer, c))
    case Some((c, t)) => Some(t.(contentEnd := c))
    case None => None
  }

  function BlankAt(s: string, closer: string, k: nat): (r: Option<Cut>)
    ensures r.Some? ==> StartsAt(s, k, "\n\n") && r.value.blank == k && ContentOk(s, closer, k + 2, r.value)
  {
    if !StartsAt(s, k, "\n\n") then None
    else match ContentFrom(s, closer, k + 2)
      case Some(t) => Some(t.(blank := k))
      case None => None
  }

  /** `\s*` (greedy) then "\n\n" after "Dear Learner,". */
  function GreetingFrom(s: string, closer: string, a: nat): (r: Option<Cut>)
    ensures r.Some? ==> GreetingOk(s, closer, a, r.value)
  {
    if a > |s| then None
    else match Longest(a, RunEnd(s, a, IsSpace), k => BlankAt(s, closer, k))
      case Some((_, t)) => Some(t)
      case None => None
  }

  function SalutationAt(s: string, closer: string, k: nat): (r: Option<Cut>)
    ensures r.Some? ==> StartsAt(s, k, Salutation) && r.value.salutation == k
                        && GreetingOk(s, closer, k + |Salutation|, r.value)
  {
    if !StartsAt(s, k, Salutation) then None
    else match GreetingFrom(s, closer, k + |Salutation|)
      case Some(t) => Some(t.(salutation := k))
      case None => None
  }

  /** `\s*` (greedy) then "\n\nDear Learner," after the course. */
  function SalutationFrom(s: string, closer: string, e: nat): (r: Option<Cut>)
    ensures r.Some? ==> SalutationOk(s, closer, e, r.value)
  {
    if e > |s| then None
    else match Longest(e, RunEnd(s, e, IsSpace), k => SalutationAt(s, closer, k))
      case Some((_, t)) => Some(t)
      case None => None
  }

  function CourseEndAt(s: string, closer: string, e: nat): (r: Option<Cut>)
    ensures r.Some? ==> r.value.courseEnd == e && SalutationOk(s, closer, e, r.value)
  {
    match SalutationFrom(s, closer, e)
    case Some(t) => Some(t.(courseEnd := e))
    case None => None
  }

  /** The second word's `\w+` (greedy). */
  function SecondWordFrom(s: string, closer: string, g: nat): (r: Option<Cut>)
    ensures r.Some? ==> SecondWordOk(s, closer, g, r.value)
  {
    if g > |s| then None
    else match Longest(g + 1, RunEnd(s, g, IsWordChar), e => CourseEndAt(s, closer, e))
      case Some((_, t)) => Some(t)
      case None => None
  }

  function Word2StartAt(s: string, closer: string, g: nat): (r: Option<Cut>)
    ensures r.Some? ==> r.value.word2Start == g && SecondWordOk(s, closer, g, r.value)
  {
    match SecondWordFrom(s, closer, g)
    case Some(t) => Some(t.(word2Start := g))
    case None => None
  }

  /**
   * `(?:\s+\w+)?` (greedy): first with a second word, its `\s+` longest first;
   * then without one.
   */
  function CourseTail(s: string, closer: string, j: nat): (r: Option<Cut>)
    ensures r.Some? ==> CourseTailOk(s, closer, j, r.value)
  {
    if j > |s| then None
    else match Longest(j + 1, RunEnd(s, j, IsSpace), g => Word2StartAt(s, closer, g))
      case Some((_, t)) => Some(t)
      case None =>
        match SalutationFrom(s, closer, j)
        case Some(t) => Some(t.(word2Start := j, courseEnd := j))
        case None => None
  }

  function WordEndAt(s: string, closer: string, j: nat): (r: Option<Cut>)
    ensures r.Some? ==> r.value.wordEnd == j && CourseTailOk(s, closer, j, r.value)
  {
    match CourseTail(s, closer, j)
    case Some(t) => Some(t.(wordEnd := j))
    case None => None
  }

  /** The course group, starting at `x`: the first word's `\w+` (greedy). */
  function CourseAt(s: string, closer: string, x: nat): (r: Option<Cut>)
    ensures r.Some? ==> r.value.courseStart == x && CourseOk(s, closer, r.value)
  {
    if x > |s| then None
    else match Longest(x + 1, RunEnd(s, x, IsWordChar), j => WordEndAt(s, closer, j))
      case Some((_, t)) => Some(t.(courseStart := x))
      case None => None
  }

  /** After the week digits end at `d`: `.+?` (lazy, any character) up to the course. */
  function WeekEndAt(s: string, closer: string, d: nat): (r: Option<Cut>)
    ensures r.Some? ==> r.value.weekEnd == d && d < r.value.courseStart && CourseOk(s, closer, r.value)
  {
    match Shortest(d + 1, |s|, x => CourseAt(s, closer, x))
    case Some((_, t)) => Some(t.(weekEnd := d))
    case None => None
  }

  /** A match starting at `p`: "Week " then `\d+` (greedy). */
  function LetterAt(s: string, closer: string, p: nat): (r: Option<Cut>)
    ensures r.Some? ==> LetterOk(s, closer, p, r.value)
  {
    if !StartsAt(s, p, WeekLabel) then None
    else match Longest(p + |WeekLabel| + 1, RunEnd(s, p + |WeekLabel|, IsDigit), d => WeekEndAt(s, closer, d))
      case Some((_, t)) => Some(t)
      case None => None
  }

  /** `re.search`: the first start, from the left, at which the pattern matches. */
  function Search(s: string, closer: string): (r: Option<(nat, Cut)>)
    ensures r.Some? ==> r.value.0 <= |s| && LetterOk(s, closer, r.value.0, r.value.1)
  {
    Shortest(0, |s|, p => LetterAt(s, closer, p))
  }

  /** No start left of the one `Search` picks, and none at all when it picks none, gives a match. */
  lemma SearchSkips(s: string, closer: string, q: nat)
    requires q <= |s|
    requires Search(s, closer).Some? ==> q < Search(s, closer).value.0
    ensures LetterAt(s, closer, q).None?
  {
    var f := (p: nat) => LetterAt(s, closer, p);
    assert f(q) == LetterAt(s, closer, q);
  }

  // Completeness: whenever the body has the shape, the matcher finds a match.

  lemma ClosingComplete(s: string, closer: string, c: nat, t: Cut)
    requires ClosingOk(s, closer, c, t)
    ensures ClosingFrom(s, closer, c).Some?
  {
    RunEndCovers(s, c, t.closing, IsSpace);
    var f := (k: nat) => ClosingAt(s, closer, k);
    assert f(t.closing).Some?;
  }

  lemma ContentComplete(s: string, closer: string, m: nat, t: Cut)
    requires ContentOk(s, closer, m, t)
    ensures ContentFrom(s, closer, m).Some?
  {
    ClosingComplete(s, closer, t.contentEnd, t);
    var f := (c: nat) => ClosingFrom(s, closer, c);
    assert f(t.contentEnd).Some?;
  }

  lemma GreetingComplete(s: string, closer: string, a: nat, t: Cut)
    requires GreetingOk(s, closer, a, t)
    ensures GreetingFrom(s, closer, a).Some?
  {
    ContentComplete(s, closer, t.blank + 2, t);
    RunEndCovers(s, a, t.blank, IsSpace);
    var f := (k: nat) => BlankAt(s, closer, k);
    assert f(t.blank).Some?;
  }

  lemma SalutationComplete(s: string, closer: string, e: nat, t: Cut)
    requires SalutationOk(s, closer, e, t)
    ensures SalutationFrom(s, closer, e).Some?
  {
    GreetingComplete(s, closer, t.salutation + |Salutation|, t);
    RunEndCovers(s, e, t.salutation, IsSpace);
    var f := (k: nat) => SalutationAt(s, closer, k);
    assert f(t.salutation).Some?;
  }

  lemma SecondWordComplete(s: string, closer: string, g: nat, t: Cut)
    requires SecondWordOk(s, closer, g, t)
    ensures SecondWordFrom(s, closer, g).Some?
  {
    SalutationComplete(s, closer, t.courseEnd, t);
    RunEndCovers(s, g, t.courseEnd, IsWordChar);
    var f := (e: nat) => CourseEndAt(s, closer, e);
    assert f(t.courseEnd).Some?;
  }

  lemma CourseTailComplete(s: string, closer: string, j: nat, t: Cut)
    requires CourseTailOk(s, closer, j, t)
    ensures CourseTail(s, closer, j).Some?
  {
    if j < t.word2Start && All(s, j, t.word2Start, IsSpace) && SecondWordOk(s, closer, t.word2Start, t) {
      SecondWordComplete(s, closer, t.word2Start, t);
      RunEndCovers(s, j, t.word2Start, IsSpace);
      var f := (g: nat) => Word2StartAt(s, closer, g);
      assert f(t.word2Start).Some?;
    } else {
      SalutationComplete(s, closer, j, t);
    }
  }

  lemma CourseComplete(s: string, closer: string, t: Cut)
    requires CourseOk(s, closer, t)
    ensures CourseAt(s, closer, t.courseStart).Some?
  {
    CourseTailComplete(s, closer, t.wordEnd, t);
    RunEndCovers(s, t.courseStart, t.wordEnd, IsWordChar);
    var f := (j: nat) => WordEndAt(s, closer, j);
    assert f(t.wordEnd).Some?;
  }

  lemma WeekEndComplete(s: string, closer: string, t: Cut)
    requires t.weekEnd < t.courseStart && CourseOk(s, closer, t)
    ensures WeekEndAt(s, closer, t.weekEnd).Some?
  {
    CourseComplete(s, closer, t);
    var g := (x: nat) => CourseAt(s, closer, x);
    assert g(t.courseStart).Some?;
  }

  lemma LetterAtComplete(s: string, closer: string, p: nat, t: Cut)
    requires LetterOk(s, closer, p, t)
    ensures LetterAt(s, closer, p).Some?
  {
    WeekEndComplete(s, closer, t);
    RunEndCovers(s, p + |WeekLabel|, t.weekEnd, IsDigit);
    var f := (d: nat) => WeekEndAt(s, closer, d);
    assert f(t.weekEnd).Some?;
  }

  // Preference: of all the splits the shape allows at one start, the matcher
  // returns the one Python's engine tries first. Each predicate below orders two
  // splits by one quantifier's choice, and by the quantifiers after it on a tie.

  /** The closing's greedy `\s*` tries the longer run of whitespace first. */
  predicate ClosingBefore(u: Cut, t: Cut) {
    u.closing > t.closing
  }

  /** The lazy content group tries the shorter content first. */
  predicate ContentBefore(u: Cut, t: Cut) {
    u.contentEnd < t.contentEnd || (u.contentEnd == t.contentEnd && ClosingBefore(u, t))
  }

  /** The greedy `\s*` after "Dear Learner," tries the later blank line first. */
  predicate GreetingBefore(u: Cut, t: Cut) {
    u.blank > t.blank || (u.blank == t.blank && ContentBefore(u, t))
  }

  /** The greedy `\s*` after the course tries the later salutation first. */
  predicate SalutationBefore(u: Cut, t: Cut) {
    u.salutation > t.salutation || (u.salutation == t.salutation && GreetingBefore(u, t))
  }

  /** The second word's greedy `\w+` tries the longer word first. */
  predicate SecondWordBefore(u: Cut, t: Cut) {
    u.courseEnd > t.courseEnd || (u.courseEnd == t.courseEnd && SalutationBefore(u, t))
  }

  /**
   * The greedy `(?:\s+\w+)?` tries a second word first, after the longest run
   * of whitespace first; without a second word, `word2Start` is the first
   * word's end and so comes last.
   */
  predicate CourseTailBefore(u: Cut, t: Cut) {
    u.word2Start > t.word2Start || (u.word2Start == t.word2Start && SecondWordBefore(u, t))
  }

  /** The first course word's greedy `\w+` tries the longer word first. */
  predicate CourseBefore(u: Cut, t: Cut) {
    u.wordEnd > t.wordEnd || (u.wordEnd == t.wordEnd && CourseTailBefore(u, t))
  }

  /** The lazy `.+?` after the week digits tries the earlier course start first. */
  predicate FillerBefore(u: Cut, t: Cut) {
    u.courseStart < t.courseStart || (u.courseStart == t.courseStart && CourseBefore(u, t))
  }

  /** The week's greedy `\d+` tries more digits first: the engine's order on the splits of a match at one start. */
  predicate TriedBefore(u: Cut, t: Cut) {
    u.weekEnd > t.weekEnd || (u.weekEnd == t.weekEnd && FillerBefore(u, t))
  }

  /** Of two different splits, one is tried before the other. */
  lemma TriedBeforeTotal(u: Cut, t: Cut)
    requires u != t
    ensures TriedBefore(u, t) || TriedBefore(t, u)
  {
  }

  lemma ClosingFirst(s: string, closer: string, c: nat, u: Cut)
    requires ClosingFrom(s, closer, c).Some? && ClosingOk(s, closer, c, u)
    ensures !ClosingBefore(u, ClosingFrom(s, closer, c).value)
  {
    RunEndCovers(s, c, u.closing, IsSpace);
    var f := (k: nat) => ClosingAt(s, closer, k);
    assert f(u.closing).Some?;
  }

  /** The content ends at the first place from which the closing matches. */
  lemma ContentFirst(s: string, closer: string, m: nat, u: Cut)
    requires ContentFrom(s, closer, m).Some? && ContentOk(s, closer, m, u)
    ensures !ContentBefore(u, ContentFrom(s, closer, m).value)
  {
    var t := ContentFrom(s, closer, m).value;
    var f := (c: nat) => ClosingFrom(s, closer, c);
    ClosingComplete(s, closer, u.contentEnd, u);
    assert f(u.contentEnd).Some?;
    if u.contentEnd == t.contentEnd {
      ClosingFirst(s, closer, u.contentEnd, u);
    }
  }

  /** The content starts after the last blank line, in the whitespace after the salutation, from which the rest matches. */
  lemma GreetingFirst(s: string, closer: string, a: nat, u: Cut)
    requires GreetingFrom(s, closer, a).Some? && GreetingOk(s, closer, a, u)
    ensures !GreetingBefore(u, GreetingFrom(s, closer, a).value)
  {
    var t := GreetingFrom(s, closer, a).value;
    var f := (k: nat) => BlankAt(s, closer, k);
    RunEndCovers(s, a, u.blank, IsSpace);
    ContentComplete(s, closer, u.blank + 2, u);
    assert f(u.blank).Some?;
    if u.blank == t.blank {
      ContentFirst(s, closer, u.blank + 2, u);
    }
  }

  lemma SalutationFirst(s: string, closer: string, e: nat, u: Cut)
    requires SalutationFrom(s, closer, e).Some? && SalutationOk(s, closer, e, u)
    ensures !SalutationBefore(u, SalutationFrom(s, closer, e).value)
  {
    var t := SalutationFrom(s, closer, e).value;
    var f := (k: nat) => SalutationAt(s, closer, k);
    RunEndCovers(s, e, u.salutation, IsSpace);
    GreetingComplete(s, closer, u.salutation + |Salutation|, u);
    assert f(u.salutation).Some?;
    if u.salutation == t.salutation {
      GreetingFirst(s, closer, u.salutation + |Salutation|, u);
    }
  }

  lemma SecondWordFirst(s: string, closer: string, g: nat, u: Cut)
    requires SecondWordFrom(s, closer, g).Some? && SecondWordOk(s, closer, g, u)
    ensures !SecondWordBefore(u, SecondWordFrom(s, closer, g).value)
  {
    var t := SecondWordFrom(s, closer, g).value;
    var f := (e: nat) => CourseEndAt(s, closer, e);
    RunEndCovers(s, g, u.courseEnd, IsWordChar);
    SalutationComplete(s, closer, u.courseEnd, u);
    assert f(u.courseEnd).Some?;
    if u.courseEnd == t.courseEnd {
      SalutationFirst(s, closer, u.courseEnd, u);
    }
  }

  /** The course takes a second word whenever one lets the rest match. */
  lemma CourseTailFirst(s: string, closer: string, j: nat, u: Cut)
    requires CourseTail(s, closer, j).Some? && CourseTailOk(s, closer, j, u)
    ensures !CourseTailBefore(u, CourseTail(s, closer, j).value)
  {
    if j < u.word2Start && All(s, j, u.word2Start, IsSpace) && SecondWordOk(s, closer, u.word2Start, u) {
      SecondWordTried(s, closer, j, u);
    } else if u.word2Start == CourseTail(s, closer, j).value.word2Start {
      SalutationFirst(s, closer, j, u);
    }
  }

  /** A split with a second course word is not tried before the one `CourseTail` returns. */
  lemma SecondWordTried(s: string, closer: string, j: nat, u: Cut)
    requires CourseTail(s, closer, j).Some?
    requires j < u.word2Start && All(s, j, u.word2Start, IsSpace) && SecondWordOk(s, closer, u.word2Start, u)
    ensures !CourseTailBefore(u, CourseTail(s, closer, j).value)
  {
    var t := CourseTail(s, closer, j).value;
    var f := (g: nat) => Word2StartAt(s, closer, g);
    RunEndCovers(s, j, u.word2Start, IsSpace);
    SecondWordComplete(s, closer, u.word2Start, u);
    assert f(u.word2Start).Some?;
    if u.word2Start == t.word2Start {
      SecondWordFirst(s, closer, u.word2Start, u);
    }
  }

  lemma CourseFirst(s: string, closer: string, u: Cut)
    requires CourseAt(s, closer, u.courseStart).Some? && CourseOk(s, closer, u)
    ensures !CourseBefore(u, CourseAt(s, closer, u.courseStart).value)
  {
    var t := CourseAt(s, closer, u.courseStart).value;
    var f := (j: nat) => WordEndAt(s, closer, j);
    RunEndCovers(s, u.courseStart, u.wordEnd, IsWordChar);
    CourseTailComplete(s, closer, u.wordEnd, u);
    assert f(u.wordEnd).Some?;
    if u.wordEnd == t.wordEnd {
      CourseTailFirst(s, closer, u.wordEnd, u);
    }
  }

  /** The course starts at the first place after the week digits from which the rest matches. */
  lemma FillerFirst(s: string, closer: string, d: nat, u: Cut)
    requires WeekEndAt(s, closer, d).Some? && d < u.courseStart && CourseOk(s, closer, u)
    ensures !FillerBefore(u, WeekEndAt(s, closer, d).value)
  {
    var t := WeekEndAt(s, closer, d).value;
    var f := (x: nat) => CourseAt(s, closer, x);
    CourseComplete(s, closer, u);
    assert f(u.courseStart).Some?;
    if u.courseStart == t.courseStart {
      CourseFirst(s, closer, u);
    }
  }

  /** No split of a match at `p` is tried before the one the matcher returns. */
  lemma LetterFirst(s: string, closer: string, p: nat, u: Cut)
    requires LetterAt(s, closer, p).Some? && LetterOk(s, closer, p, u)
    ensures !TriedBefore(u, LetterAt(s, closer, p).value)
  {
    var t := LetterAt(s, closer, p).value;
    var f := (d: nat) => WeekEndAt(s, closer, d);
    RunEndCovers(s, p + |WeekLabel|, u.weekEnd, IsDigit);
    WeekEndComplete(s, closer, u);
    assert f(u.weekEnd).Some?;
    if u.weekEnd == t.weekEnd {
      FillerFirst(s, closer, u.weekEnd, u);
    }
  }

  /** `re.search(pattern, body, re.DOTALL)` followed by `match.groups()`. */
  function ExtractLetter(s: string, closer: string): (r: Option<Letter>)
    ensures r.Some? ==> |r.value.week| > 0 && forall i :: 0 <= i < |r.value.week| ==> IsDigit(r.value.week[i])
    ensures r.Some? ==> |r.value.course| > 0 && |r.value.content| > 0
  {
    match Search(s, closer)
    case Some((p, t)) => Some(Groups(s, closer, p, t))
    case None => None
  }

  /** Extraction fails exactly when no part of the body has the pattern's shape. */
  lemma ExtractLetterFails(s: string, closer: string)
    ensures ExtractLetter(s, closer).None? <==> forall p: nat, t: Cut :: !LetterOk(s, closer, p, t)
  {
    if ExtractLetter(s, closer).None? {
      forall p: nat, t: Cut ensures !LetterOk(s, closer, p, t) {
        if LetterOk(s, closer, p, t) {
          LetterAtComplete(s, closer, p, t);
          SearchSkips(s, closer, p);
          assert false;
        }
      }
    }
  }

  /**
   * The match `re.search` reports: the body has the shape at `p` split as `t`,
   * at no start left of `p`, and no split at `p` is tried before `t`.
   */
  ghost predicate FirstMatch(s: string, closer: string, p: nat, t: Cut) {
    LetterOk(s, closer, p, t)
    && (forall q: nat, u: Cut :: q < p ==> !LetterOk(s, closer, q, u))
    && (forall u: Cut :: LetterOk(s, closer, p, u) ==> !TriedBefore(u, t))
  }

  /**
   * A successful extraction returns the groups of the leftmost place where the
   * body has the shape and, of the splits the shape allows there, of the one
   * the engine tries first.
   */
  lemma ExtractLetterLeftmost(s: string, closer: string, l: Letter)
    requires ExtractLetter(s, closer) == Some(l)
    ensures exists p: nat, t: Cut :: FirstMatch(s, closer, p, t) && l == Groups(s, closer, p, t)
  {
    var (p, t) := Search(s, closer).value;
    forall q: nat, u: Cut | q < p ensures !LetterOk(s, closer, q, u) {
      if LetterOk(s, closer, q, u) {
        LetterAtComplete(s, closer, q, u);
        SearchSkips(s, closer, q);
        assert false;
      }
    }
    var f := (q: nat) => LetterAt(s, closer, q);
    assert f(p) == Some(t);
    forall u: Cut | LetterOk(s, closer, p, u) ensures !TriedBefore(u, t) {
      LetterFirst(s, closer, p, u);
    }
    assert FirstMatch(s, closer, p, t) && l == Groups(s, closer, p, t);
  }

  /** The first match starts no later than any place where the body has the shape. */
  lemma FirstMatchLeftmost(s: string, closer: string, p: nat, t: Cut, q: nat, u: Cut)
    requires FirstMatch(s, closer, p, t) && LetterOk(s, closer, q, u)
    ensures p <= q
  {
  }

  /** At most one split is the first match: the groups `re.search` reports are determined by the body. */
  lemma FirstMatchUnique(s: string, closer: string, p: nat, t: Cut, q: nat, u: Cut)
    requires FirstMatch(s, closer, p, t) && FirstMatch(s, closer, q, u)
    ensures p == q && t == u
  {
    FirstMatchLeftmost(s, closer, p, t, q, u);
    FirstMatchLeftmost(s, closer, q, u, p, t);
    if t != u {
      TriedBeforeTotal(t, u);
    }
  }

  /** A welcome letter whose week line names the course after a filler word. */
  const OfSystemsLetter := "Week 3 of Systems" + Salutation + "\n\n" + "New videos are up." + "\n\n" + WarmRegards

  /** The split of `OfSystemsLetter` with the course "of Systems". */
  const OfSystemsCut := Cut(6, 7, 9, 10, 17, 17, 32, 52, 52)

  lemma OfSystemsShape()
    ensures LetterOk(OfSystemsLetter, WarmRegards, 0, OfSystemsCut)
  {
    var s := OfSystemsLetter;
    assert s[52..66] == "\n\n" + WarmRegards;
    assert s[32..34] == "\n\n";
    assert s[17..32] == Salutation;
    assert s[0..5] == WeekLabel;
    AllStep(s, 16, 17, IsWordChar);
    AllStep(s, 15, 17, IsWordChar);
    AllStep(s, 14, 17, IsWordChar);
    AllStep(s, 13, 17, IsWordChar);
    AllStep(s, 12, 17, IsWordChar);
    AllStep(s, 11, 17, IsWordChar);
    AllStep(s, 10, 17, IsWordChar);
    AllStep(s, 9, 10, IsSpace);
    AllStep(s, 8, 9, IsWordChar);
    AllStep(s, 7, 9, IsWordChar);
    AllStep(s, 5, 6, IsDigit);
  }

  lemma OfSystemsWords()
    ensures OfSystemsLetter[5..6] == "3" && OfSystemsLetter[7..17] == "of Systems"
  {
  }

  /** A split of `OfSystemsLetter` at its start that `OfSystemsCut` is not tried before has the same week and course. */
  lemma OfSystemsGroups(t: Cut)
    requires LetterOk(OfSystemsLetter, WarmRegards, 0, t) && !TriedBefore(OfSystemsCut, t)
    ensures t.weekEnd == 6 && t.courseStart == 7 && t.courseEnd == 17
  {
    var s := OfSystemsLetter;
    assert !IsDigit(s[6]) && !IsWordChar(s[9]) && !IsSpace(s[10]) && !IsWordChar(s[17]);
    AllStops(s, 5, t.weekEnd, IsDigit, 6);
    AllStops(s, 7, t.wordEnd, IsWordChar, 9);
    assert t.wordEnd == 9;
    assert t.word2Start >= 10;
    AllStops(s, 9, t.word2Start, IsSpace, 10);
    AllStops(s, 10, t.courseEnd, IsWordChar, 17);
  }

  /** A body with the shape at its very start is matched there, with the split the engine tries first. */
  lemma ExtractLetterAtStart(s: string, closer: string, u: Cut)
    requires LetterOk(s, closer, 0, u)
    ensures LetterAt(s, closer, 0).Some?
    ensures ExtractLetter(s, closer) == Some(Groups(s, closer, 0, LetterAt(s, closer, 0).value))
    ensures !TriedBefore(u, LetterAt(s, closer, 0).value)
  {
    LetterAtComplete(s, closer, 0, u);
    LetterFirst(s, closer, 0, u);
  }

  /**
   * The lazy `.+?` gives up the week line's text one character in, and the
   * course group then takes the two words that follow: the course is
   * "of Systems", not "Systems".
   */
  lemma OfSystemsCourse()
    ensures ExtractLetter(OfSystemsLetter, WarmRegards).Some?
    ensures ExtractLetter(OfSystemsLetter, WarmRegards).value.week == "3"
    ensures ExtractLetter(OfSystemsLetter, WarmRegards).value.course == "of Systems"
  {
    OfSystemsShape();
    ExtractLetterAtStart(OfSystemsLetter, WarmRegards, OfSystemsCut);
    OfSystemsGroups(LetterAt(OfSystemsLetter, WarmRegards, 0).value);
    OfSystemsWords();
  }
}
