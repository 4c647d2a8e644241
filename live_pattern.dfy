/**
 * The pattern of a "Live Session Details" email, matched without DOTALL:
 *
 *   Course: (.+?)\nGmeet Link: (.+?)\nDate: (.+?)\nTime: (.+)
 *
 * Without DOTALL `.` never matches a newline, so each lazy group can only
 * grow up to the end of its line, and the label after it starts with that
 * newline: at a given start every group is the rest of its line. The last,
 * greedy group also takes the rest of its line.
 */
module LivePattern {
  import opened Text
  import opened Regex
  import opened LineFields

  const CourseLabel := "Course: "
  const LinkLabel := "\nGmeet Link: "
  const DateLabel := "\nDate: "
  const TimeLabel := "\nTime: "

  /** The four groups of a match, in the pattern's order. */
  datatype LiveDetails = LiveDetails(course: string, link: string, date: string, time: string)

  /** The pattern's literals, each before the group it labels. */
  const LiveLabels: seq<string> := [CourseLabel, LinkLabel, DateLabel, TimeLabel]

  function Fields(f: LiveDetails): seq<string> {
    [f.course, f.link, f.date, f.time]
  }

  /** The text a match with these groups covers. */
  function LiveBlock(f: LiveDetails): string {
    (CourseLabel + f.course) + (LinkLabel + f.link) + (DateLabel + f.date) + (TimeLabel + f.time)
  }

  /** The pattern matches at `p` with groups `f`. */
  ghost predicate LiveOk(s: string, p: nat, f: LiveDetails) {
    RunOk(s, p, LiveLabels, Fields(f))
  }

  /** The match starting at `p`, if any: each group runs to the end of its line. */
  function LiveAt(s: string, p: nat): (r: Option<LiveDetails>)
    ensures r.Some? ==> LiveOk(s, p, r.value)
  {
    match FieldRun(s, p, LiveLabels)
    case None => None
    case Some((vs, _)) =>
      FieldRunSound(s, p, LiveLabels);
      assert vs == Fields(LiveDetails(vs[0], vs[1], vs[2], vs[3]));
      Some(LiveDetails(vs[0], vs[1], vs[2], vs[3]))
  }

  /** The labelled run of the four fields is the block the pattern describes. */
  lemma LiveBlockLabelled(f: LiveDetails)
    ensures Labelled(LiveLabels, Fields(f)) == LiveBlock(f)
  {
    LabelledFour(CourseLabel, LinkLabel, DateLabel, TimeLabel, f.course, f.link, f.date, f.time);
  }

  /**
   * The shape in plain terms: four non-empty one-line values, laid out with
   * their labels at `p`, the last one ending its line.
   */
  lemma LiveOkShape(s: string, p: nat, f: LiveDetails)
    ensures LiveOk(s, p, f) <==>
      IsLineValue(f.course) && IsLineValue(f.link) && IsLineValue(f.date) && IsLineValue(f.time)
      && StartsAt(s, p, LiveBlock(f)) && EndsLine(s, p + |LiveBlock(f)|)
  {
    LiveBlockLabelled(f);
    LineValuesFour(f.course, f.link, f.date, f.time);
  }

  /** At any start, the matcher returns exactly the groups of the shape, and fails when there are none. */
  lemma LiveAtIff(s: string, p: nat, f: LiveDetails)
    ensures LiveAt(s, p) == Some(f) <==> LiveOk(s, p, f)
  {
    NewlineLedFour(CourseLabel, LinkLabel, DateLabel, TimeLabel);
    if LiveOk(s, p, f) {
      FieldRunIff(s, p, LiveLabels, Fields(f), p + |Labelled(LiveLabels, Fields(f))|);
    }
    if LiveAt(s, p) == Some(f) {
      var (vs, end) := FieldRun(s, p, LiveLabels).value;
      assert vs == Fields(f);
      FieldRunIff(s, p, LiveLabels, vs, end);
    }
  }

  /** `re.search`: the first start, from the left, at which the pattern matches. */
  function ExtractLive(s: string): (r: Option<LiveDetails>)
    ensures r.Some? ==> IsLineValue(r.value.course) && IsLineValue(r.value.link)
                        && IsLineValue(r.value.date) && IsLineValue(r.value.time)
  {
    var h := (p: nat) => LiveAt(s, p);
    match Shortest(0, |s|, h)
    case Some((p, f)) =>
      assert h(p) == Some(f);
      LiveOkShape(s, p, f);
      Some(f)
    case None => None
  }

  /** Extraction returns the groups of the leftmost match. */
  lemma ExtractLiveLeftmost(s: string, f: LiveDetails)
    requires ExtractLive(s) == Some(f)
    ensures exists p: nat :: LiveOk(s, p, f) && forall q: nat, g: LiveDetails :: q < p ==> !LiveOk(s, q, g)
  {
    var h := (p: nat) => LiveAt(s, p);
    var (p, _) := Shortest(0, |s|, h).value;
    assert h(p) == Some(f);
    LiveAtIff(s, p, f);
    LiveOkShape(s, p, f);
    forall q: nat, g: LiveDetails | q < p ensures !LiveOk(s, q, g) {
      assert h(q).None?;
      LiveAtIff(s, q, g);
    }
  }

  /** Extraction fails exactly when no part of the body has the pattern's shape. */
  lemma ExtractLiveFails(s: string)
    ensures ExtractLive(s).None? <==> forall p: nat, f: LiveDetails :: !LiveOk(s, p, f)
  {
    var h := (p: nat) => LiveAt(s, p);
    if ExtractLive(s).None? {
      forall p: nat, f: LiveDetails ensures !LiveOk(s, p, f) {
        LiveAtIff(s, p, f);
        if p <= |s| {
          assert h(p).None?;
        }
      }
    } else {
      var (p, f) := Shortest(0, |s|, h).value;
      assert h(p) == Some(f);
      LiveAtIff(s, p, f);
    }
  }

  /**
   * Round trip: a body that begins with the labelled lines gives back exactly
   * the values written into them.
   */
  lemma ExtractLiveRoundTrip(f: LiveDetails, rest: string)
    requires IsLineValue(f.course) && IsLineValue(f.link) && IsLineValue(f.date) && IsLineValue(f.time)
    requires rest == [] || rest[0] == '\n'
    ensures ExtractLive(LiveBlock(f) + rest) == Some(f)
  {
    var s := LiveBlock(f) + rest;
    assert s[..|LiveBlock(f)|] == LiveBlock(f);
    LiveOkShape(s, 0, f);
    LiveAtIff(s, 0, f);
    var h := (p: nat) => LiveAt(s, p);
    assert h(0) == Some(f);
  }
}
