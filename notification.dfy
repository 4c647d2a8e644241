/**
 * `format_telegram_message`: the subject picks a kind of notification, the
 * kind's pattern extracts fields from the body, and a template renders them.
 * When the subject names no kind, or the kind's pattern finds nothing, the
 * message is the generic one: the subject and the first 200 characters of the
 * body.
 */
module Notification {
  import opened Text
  import opened Regex
  import LetterPattern
  import LivePattern
  import RevisionPattern

  datatype Kind = ContentReleased | LiveSession | DeadlineReminder | RevisionSessions | Generic

  const ContentMarker := "Content released"
  const LiveMarker := "Live Session Details"
  const DeadlineMarker := "Assignment Deadline Reminder"
  const RevisionMarker := "Revision sessions"

  /** The subject phrases in the order the checks try them, with the kind each selects. */
  const Markers: seq<(string, Kind)> :=
    [(ContentMarker, ContentReleased), (LiveMarker, LiveSession),
     (DeadlineMarker, DeadlineReminder), (RevisionMarker, RevisionSessions)]

  /** Marker `i` is in the subject and no earlier marker is. */
  predicate FirstMarker(subject: string, i: nat) {
    i < |Markers| && Contains(subject, Markers[i].0)
    && forall j :: 0 <= j < i ==> !Contains(subject, Markers[j].0)
  }

  /** The chain of subject checks: the first phrase the subject contains decides the kind. */
  function Classify(subject: string): (k: Kind)
    ensures k == Generic <==> forall i :: 0 <= i < |Markers| ==> !Contains(subject, Markers[i].0)
    ensures k != Generic ==> exists i: nat :: FirstMarker(subject, i) && Markers[i].1 == k
  {
    if Contains(subject, ContentMarker) then
      assert FirstMarker(subject, 0);
      ContentReleased
    else if Contains(subject, LiveMarker) then
      assert FirstMarker(subject, 1);
      LiveSession
    else if Contains(subject, DeadlineMarker) then
      assert FirstMarker(subject, 2);
      DeadlineReminder
    else if Contains(subject, RevisionMarker) then
      assert FirstMarker(subject, 3);
      RevisionSessions
    else Generic
  }

  function Min(a: int, b: int): int {
    if a < b then a else b
  }

  /** How many characters of the body the generic message keeps. */
  const SnippetLength := 200

  const ReleasedTitle := "\U{1F4DA} <b>New Content Released</b>"
  const LiveTitle := "\U{1F3A5} <b>Live Session Scheduled</b>"
  const DeadlineTitle := "\U{23F0} <b>Assignment Deadline Reminder</b>"
  const RevisionTitle := "\U{1F4DA} <b>Revision Sessions Scheduled</b>"
  const Reminder := "\U{1F514} Don't forget to check the deadline!"
  const WeekPrefix := "\U{1F4C5} Week "
  const CoursePrefix := "\U{1F4D8} Course: "
  const DatePrefix := "\U{1F4C5} Date: "
  const TimePrefix := "\U{1F552} Time: "
  const LinkPrefix := "\U{1F517} Link: "
  const BookmarkPrefix := "\U{1F516} "

  /** The week, course and content lines the two letter templates share. */
  function LetterLines(l: LetterPattern.Letter): string {
    WeekPrefix + l.week + "\n" + CoursePrefix + l.course + "\n\n" + l.content
  }

  function ReleasedNotice(l: LetterPattern.Letter): string {
    ReleasedTitle + "\n\n" + LetterLines(l) + "\n\n" + Reminder
  }

  function DeadlineNotice(l: LetterPattern.Letter): string {
    DeadlineTitle + "\n\n" + LetterLines(l)
  }

  /** The live-session template lists the course, date, time and link, in that order. */
  function LiveNotice(f: LivePattern.LiveDetails): string {
    LiveTitle + "\n\n" + CoursePrefix + f.course + "\n" + DatePrefix + f.date + "\n"
    + TimePrefix + f.time + "\n" + LinkPrefix + f.link
  }

  /** What one loop iteration appends for one revision session. */
  function SessionBlock(x: RevisionPattern.RevisionSession): string {
    BookmarkPrefix + x.session + "\n" + DatePrefix + x.date + "\n" + TimePrefix + x.time + "\n"
    + LinkPrefix + x.link + "\n\n"
  }

  /** The blocks of `xs`, one after the other, in order. */
  function SessionBlocks(xs: seq<RevisionPattern.RevisionSession>): string {
    if xs == [] then "" else SessionBlock(xs[0]) + SessionBlocks(xs[1..])
  }

  /** Appending one more session appends its block. */
  lemma {:induction false} SessionBlocksSnoc(xs: seq<RevisionPattern.RevisionSession>, x: RevisionPattern.RevisionSession)
    ensures SessionBlocks(xs + [x]) == SessionBlocks(xs) + SessionBlock(x)
    decreases |xs|
  {
    if xs == [] {
      assert [x][1..] == [];
    } else {
      assert (xs + [x])[1..] == xs[1..] + [x];
      SessionBlocksSnoc(xs[1..], x);
    }
  }

  function RevisionNotice(xs: seq<RevisionPattern.RevisionSession>): string {
    RevisionTitle + "\n\n" + SessionBlocks(xs)
  }

  /** The fallback: the subject in bold, then at most the first 200 characters of the body. */
  function GenericNotice(subject: string, body: string): string {
    "\U{1F4EC} <b>" + subject + "</b>\n\n" + body[..Min(SnippetLength, |body|)] + "..."
  }

  /** The message for `subject` and `body`. */
  function Format(subject: string, body: string): string {
    match Classify(subject)
    case ContentReleased =>
      (match LetterPattern.ExtractLetter(body, LetterPattern.WarmRegards)
       case Some(l) => ReleasedNotice(l)
       case None => GenericNotice(subject, body))
    case LiveSession =>
      (match LivePattern.ExtractLive(body)
       case Some(f) => LiveNotice(f)
       case None => GenericNotice(subject, body))
    case DeadlineReminder =>
      (match LetterPattern.ExtractLetter(body, LetterPattern.Regards)
       case Some(l) => DeadlineNotice(l)
       case None => GenericNotice(subject, body))
    case RevisionSessions =>
      var xs := RevisionPattern.Findall(body);
      if xs == [] then GenericNotice(subject, body) else RevisionNotice(xs)
    case Generic => GenericNotice(subject, body)
  }

  /** The revision-sessions branch: the title, then one block appended per session. */
  method RenderSessions(sessions: seq<RevisionPattern.RevisionSession>) returns (message: string)
    ensures message == RevisionNotice(sessions)
  {
    message := RevisionTitle + "\n\n";
    for i := 0 to |sessions|
      invariant message == RevisionTitle + "\n\n" + SessionBlocks(sessions[..i])
    {
      assert sessions[..i + 1] == sessions[..i] + [sessions[i]];
      SessionBlocksSnoc(sessions[..i], sessions[i]);
      message := message + SessionBlock(sessions[i]);
    }
    assert sessions[..|sessions|] == sessions;
  }

  /**
   * The function as the program runs it: the chain of subject checks, one
   * extraction, and for revision sessions a loop that appends one block per
   * session found.
   */
  method FormatTelegramMessage(subject: string, body: string) returns (message: string)
    ensures message == Format(subject, body)
  {
    if Contains(subject, ContentMarker) {
      assert Classify(subject) == ContentReleased;
      var m := LetterPattern.ExtractLetter(body, LetterPattern.WarmRegards);
      if m.Some? {
        return ReleasedNotice(m.value);
      }
    } else if Contains(subject, LiveMarker) {
      assert Classify(subject) == LiveSession;
      var m := LivePattern.ExtractLive(body);
      if m.Some? {
        return LiveNotice(m.value);
      }
    } else if Contains(subject, DeadlineMarker) {
      assert Classify(subject) == DeadlineReminder;
      var m := LetterPattern.ExtractLetter(body, LetterPattern.Regards);
      if m.Some? {
        return DeadlineNotice(m.value);
      }
    } else if Contains(subject, RevisionMarker) {
      assert Classify(subject) == RevisionSessions;
      var sessions := RevisionPattern.Findall(body);
      if |sessions| > 0 {
        message := RenderSessions(sessions);
        return;
      }
    }
    message := GenericNotice(subject, body);
  }
}
