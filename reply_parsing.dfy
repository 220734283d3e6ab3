/**
 * Reading structure out of LLM replies: the actor-critic workflow's tolerant
 * section parser, the one-line split the timescale and policy-gradient
 * critics use instead, and the selective critic's choice of actor.
 */
module ReplyParsing {
  import opened PyText
  import opened Narrative

  /** A critic reply cut into the analysis and the narrative response. */
  datatype CriticSections = CriticSections(analysis: string, response: string)

  const ActionAnalysisMarker := "Action Analysis:"
  const AnalysisMarker := "Analysis:"
  const ResponseMarker := "Response:"

  /** The markers tried, in order, once neither analysis heading pairs with "Response:". */
  const FallbackMarkers: seq<string> := ["Response:", "Scene:", "Next Scene:", "What happens next:"]

  /** The best-effort split on the first of `markers` the reply contains. */
  function FallbackSections(s: string, markers: seq<string>): (r: CriticSections)
    requires forall k :: 0 <= k < |markers| ==> |markers[k]| > 0
  {
    if markers == [] then CriticSections("", Strip(s))
    else if Contains(s, markers[0]) then
      var parts := SplitOnce(s, markers[0]);
      CriticSections(Strip(parts[0]), Strip(parts[1]))
    else FallbackSections(s, markers[1..])
  }

  /** What `_parse_critic_response` returns for a reply. */
  function CriticSectionsOf(s: string): CriticSections {
    if Contains(s, ActionAnalysisMarker) && Contains(s, ResponseMarker) then
      var parts := SplitOnce(s, ResponseMarker);
      CriticSections(Strip(ReplaceFirst(parts[0], ActionAnalysisMarker, "")), Strip(parts[1]))
    else if Contains(s, AnalysisMarker) && Contains(s, ResponseMarker) then
      var parts := SplitOnce(s, ResponseMarker);
      CriticSections(Strip(ReplaceFirst(parts[0], AnalysisMarker, "")), Strip(parts[1]))
    else FallbackSections(s, FallbackMarkers)
  }

  /** `ActorCriticWorkflow._parse_critic_response`, with its loop over the fallback markers. */
  method ParseCriticResponse(fullResponse: string) returns (analysis: string, response: string)
    ensures CriticSections(analysis, response) == CriticSectionsOf(fullResponse)
  {
    if Contains(fullResponse, ActionAnalysisMarker) && Contains(fullResponse, ResponseMarker) {
      var parts := SplitOnce(fullResponse, ResponseMarker);
      analysis := Strip(ReplaceFirst(parts[0], ActionAnalysisMarker, ""));
      response := Strip(parts[1]);
      return;
    }
    if Contains(fullResponse, AnalysisMarker) && Contains(fullResponse, ResponseMarker) {
      var parts := SplitOnce(fullResponse, ResponseMarker);
      analysis := Strip(ReplaceFirst(parts[0], AnalysisMarker, ""));
      response := Strip(parts[1]);
      return;
    }
    var i := 0;
    while i < |FallbackMarkers|
      invariant 0 <= i <= |FallbackMarkers|
      invariant FallbackSections(fullResponse, FallbackMarkers[i..]) == FallbackSections(fullResponse, FallbackMarkers)
    {
      var marker := FallbackMarkers[i];
      if Contains(fullResponse, marker) {
        var parts := SplitOnce(fullResponse, marker);
        analysis, response := Strip(parts[0]), Strip(parts[1]);
        return;
      }
      i := i + 1;
    }
    analysis, response := "", Strip(fullResponse);
  }

  /**
   * A reply in the requested layout, "Action Analysis:" + a + "Response:" + r
   * where the analysis does not itself contain "Response:", splits into its
   * two stripped sections.
   */
  lemma WellFormedCriticReply(a: string, r: string)
    requires !Contains(a, ResponseMarker)
    ensures CriticSectionsOf(ActionAnalysisMarker + a + ResponseMarker + r) == CriticSections(Strip(a), Strip(r))
  {
    var head := ActionAnalysisMarker + a;
    var s := head + (ResponseMarker + r);
    assert s == ActionAnalysisMarker + a + ResponseMarker + r;
    NoResponseInHeading(a);
    SplitAtResponse(head, r);
    DropHeading(a, s);
  }

  /** The heading has no capital R, so "Response:" can only occur in the analysis after it. */
  lemma NoResponseInHeading(a: string)
    requires !Contains(a, ResponseMarker)
    ensures !Contains(ActionAnalysisMarker + a, ResponseMarker)
  {
    var head := ActionAnalysisMarker + a;
    var m := |ResponseMarker|;
    forall j | 0 <= j ensures !OccursAt(head, ResponseMarker, j) {
      if j < |ActionAnalysisMarker| && j + m <= |head| {
        assert head[j..j + m][0] == head[j] == ActionAnalysisMarker[j] != 'R';
      } else if j + m <= |head| {
        var k := j - |ActionAnalysisMarker|;
        assert head[j..j + m] == a[k..k + m];
        assert !OccursAt(a, ResponseMarker, k);
      }
    }
    ContainsIff(head, ResponseMarker);
  }

  /**
   * The first "Response:" of `head + "Response:" + r` is the one after `head`
   * when `head` has none: no occurrence can straddle into the marker, whose
   * only capital R is its first character.
   */
  lemma FirstResponseAfter(head: string, r: string)
    requires !Contains(head, ResponseMarker)
    ensures Find(head + (ResponseMarker + r), ResponseMarker) == Some(|head|)
  {
    var s := head + (ResponseMarker + r);
    var m := |ResponseMarker|;
    assert s[|head|..|head| + m] == ResponseMarker;
    forall j | 0 <= j < |head| ensures !OccursAt(s, ResponseMarker, j) {
      if j + m <= |head| {
        assert s[j..j + m] == head[j..j + m];
        assert !OccursAt(head, ResponseMarker, j);
      } else if j + m <= |s| {
        var d := |head| - j;
        assert s[j..j + m][d] == s[|head|] == 'R' != ResponseMarker[d];
      }
    }
    FindFirstOccurrence(s, ResponseMarker, |head|);
  }

  /** Splitting at "Response:" when the text before it does not contain it. */
  lemma SplitAtResponse(head: string, r: string)
    requires !Contains(head, ResponseMarker)
    ensures SplitOnce(head + (ResponseMarker + r), ResponseMarker) == [head, r]
  {
    var s := head + (ResponseMarker + r);
    FirstResponseAfter(head, r);
    assert s[..|head|] == head;
    assert s[|head| + |ResponseMarker|..] == r;
  }

  /** The heading a well-formed reply starts with is found, and removing it leaves the analysis. */
  lemma DropHeading(a: string, s: string)
    requires ActionAnalysisMarker + a <= s
    ensures ReplaceFirst(ActionAnalysisMarker + a, ActionAnalysisMarker, "") == a
    ensures Contains(s, ActionAnalysisMarker)
  {
    var head := ActionAnalysisMarker + a;
    FindAfterPrefix("", head, ActionAnalysisMarker);
    assert "" + head == head;
    assert head[|ActionAnalysisMarker|..] == a;
    assert s[..|ActionAnalysisMarker|] == ActionAnalysisMarker;
    OccursContains(s, ActionAnalysisMarker, 0);
  }

  /** Whenever the reply contains "Response:", the narrative is everything after its first occurrence, stripped. */
  lemma ResponseAfterFirstMarker(s: string)
    requires Contains(s, ResponseMarker)
    ensures CriticSectionsOf(s).response == Strip(SplitOnce(s, ResponseMarker)[1])
  {
  }

  /** Trying markers none of which occurs ends in the no-marker case. */
  lemma {:induction false} FallbackNone(s: string, markers: seq<string>)
    requires forall k :: 0 <= k < |markers| ==> |markers[k]| > 0 && !Contains(s, markers[k])
    ensures FallbackSections(s, markers) == CriticSections("", Strip(s))
  {
    if markers != [] {
      FallbackNone(s, markers[1..]);
    }
  }

  /** A reply with none of the markers is all response and no analysis. */
  lemma NoMarkerAllResponse(s: string)
    requires forall k :: 0 <= k < |FallbackMarkers| ==> !Contains(s, FallbackMarkers[k])
    ensures CriticSectionsOf(s) == CriticSections("", Strip(s))
  {
    assert !Contains(s, FallbackMarkers[0]);
    FallbackNone(s, FallbackMarkers);
  }

  lemma SceneInsideNextScene()
    ensures Contains("Next Scene:", "Scene:")
  {
    assert "Next Scene:"[5..11] == "Scene:";
    OccursContains("Next Scene:", "Scene:", 5);
  }

  /** "Next Scene:" is never the marker that splits a reply: "Scene:", tried before it, is inside it. */
  lemma NextSceneNeverChosen(s: string)
    requires Contains(s, "Next Scene:") && !Contains(s, ResponseMarker)
    ensures CriticSectionsOf(s) == FallbackSections(s, ["Scene:"])
  {
    SceneInsideNextScene();
    ContainsTransitive(s, "Next Scene:", "Scene:");
    var tail := FallbackMarkers[1..];
    assert CriticSectionsOf(s) == FallbackSections(s, tail) by {
      assert FallbackMarkers[0] == ResponseMarker;
    }
    assert tail[0] == "Scene:" && ["Scene:"][0] == "Scene:";
  }

  /** With "Analysis:" but not "Action Analysis:", the first "Analysis:" heading is what is removed. */
  lemma AnalysisHeadingBranch(s: string)
    requires !Contains(s, ActionAnalysisMarker) && Contains(s, AnalysisMarker) && Contains(s, ResponseMarker)
    ensures CriticSectionsOf(s).analysis == Strip(ReplaceFirst(SplitOnce(s, ResponseMarker)[0], AnalysisMarker, ""))
  {
  }

  // ---------------------------------------------------------------------
  // The split the timescale and policy-gradient critics use

  const AnalysisParsingFailed := "Analysis parsing failed"

  /**
   * `full.split("Response:")[0].replace("Action Analysis:", "").strip()` and
   * `full.split("Response:")[1].strip()`; the IndexError raised when there is
   * no "Response:" gives the failure text and the unstripped reply.
   */
  function NaiveCriticSections(s: string): (r: CriticSections)
    ensures !Contains(s, ResponseMarker) <==> r.analysis == AnalysisParsingFailed && r.response == s
  {
    if Contains(s, ResponseMarker) then
      var pieces := Split(s, ResponseMarker);
      var r := CriticSections(Strip(Replace(pieces[0], ActionAnalysisMarker, "")), Strip(pieces[1]));
      SecondPieceShorter(s, ResponseMarker);
      r
    else CriticSections(AnalysisParsingFailed, s)
  }

  lemma SecondPieceShorter(s: string, sep: string)
    requires |sep| > 0 && Contains(s, sep)
    ensures |Split(s, sep)| >= 2 && |Split(s, sep)[1]| < |s|
  {
    var i := Find(s, sep).value;
    SplitUnfold(s, sep, i);
  }

  /** The second piece of a full split is the first piece of what follows the first separator. */
  lemma SecondPiece(s: string, sep: string)
    requires |sep| > 0 && Contains(s, sep)
    ensures Split(s, sep)[1] == Split(SplitOnce(s, sep)[1], sep)[0]
  {
  }

  /**
   * The naive split and `_parse_critic_response` give the same narrative
   * exactly when "Response:" occurs only once in the reply.
   */
  lemma NarrativesAgreeIff(s: string)
    requires Contains(s, ResponseMarker)
    ensures NaiveCriticSections(s).response == CriticSectionsOf(s).response
            <==> !Contains(SplitOnce(s, ResponseMarker)[1], ResponseMarker)
  {
    var rest := SplitOnce(s, ResponseMarker)[1];
    SecondPiece(s, ResponseMarker);
    ResponseAfterFirstMarker(s);
    if Contains(rest, ResponseMarker) {
      var first := Split(rest, ResponseMarker)[0];
      SplitPiecesFree(rest, ResponseMarker, 0);
      StripFree(first, ResponseMarker);
      StripKeeps(rest, ResponseMarker);
    }
  }

  // ---------------------------------------------------------------------
  // The selective critic's choice of actor

  const SelectedActorMarker := "SELECTED ACTOR:"

  /** The classifier's labels, in the order they are tried. */
  const ActorOrder: seq<ActorKind> := [Exploration, Conflict, Interaction, Transition, Revelation]

  function KindName(k: ActorKind): string {
    match k
    case Exploration => "EXPLORATION"
    case Conflict => "CONFLICT"
    case Interaction => "INTERACTION"
    case Transition => "TRANSITION"
    case Revelation => "REVELATION"
  }

  /** The rest of the line after the first "SELECTED ACTOR:", up to the next one, stripped. */
  function ActorLine(text: string): string
    requires Contains(text, SelectedActorMarker)
  {
    Strip(Split(Split(text, SelectedActorMarker)[1], "\n")[0])
  }

  /** The labels of `ActorOrder`, position by position. */
  const ActorNames: seq<string> := ["EXPLORATION", "CONFLICT", "INTERACTION", "TRANSITION", "REVELATION"]

  lemma ActorNamesAgree()
    ensures |ActorNames| == |ActorOrder|
    ensures forall j :: 0 <= j < |ActorOrder| ==> ActorNames[j] == KindName(ActorOrder[j])
  {
  }

  /** The position of the first of `names[from..]` that occurs in `line`. */
  function FirstNamedFrom(line: string, names: seq<string>, from: nat): (r: Option<nat>)
    decreases |names| - from
    ensures r.Some? ==> from <= r.value < |names|
  {
    if from >= |names| then None
    else if Contains(line, names[from]) then Some(from)
    else FirstNamedFrom(line, names, from + 1)
  }

  /** The scan finds the first label the line contains, or reports that none is there. */
  lemma {:induction false} FirstNamedFromMeaning(line: string, names: seq<string>, from: nat)
    decreases |names| - from
    ensures var r := FirstNamedFrom(line, names, from);
      && (r.Some? ==> Contains(line, names[r.value]))
      && (r.Some? ==> forall j :: from <= j < r.value ==> !Contains(line, names[j]))
      && (r.None? ==> forall j :: from <= j < |names| ==> !Contains(line, names[j]))
  {
    if from < |names| && !Contains(line, names[from]) {
      FirstNamedFromMeaning(line, names, from + 1);
    }
  }

  /** The actor the selective critic picks from its own reply; EXPLORATION is the default. */
  function SelectedActor(text: string): ActorKind {
    if Contains(text, SelectedActorMarker) then
      match FirstNamedFrom(ActorLine(text), ActorNames, 0)
      case Some(i) => ActorOrder[i]
      case None => Exploration
    else Exploration
  }

  /** The scan in `selective_critic`: the loop over the five labels, stopping at the first found. */
  method SelectActorType(responseText: string) returns (actorType: ActorKind)
    ensures actorType == SelectedActor(responseText)
  {
    actorType := Exploration;
    if Contains(responseText, SelectedActorMarker) {
      var actorLine := ActorLine(responseText);
      ActorNamesAgree();
      var i := 0;
      while i < |ActorOrder|
        invariant 0 <= i <= |ActorOrder|
        invariant FirstNamedFrom(actorLine, ActorNames, i) == FirstNamedFrom(actorLine, ActorNames, 0)
      {
        var possible := ActorOrder[i];
        if Contains(actorLine, KindName(possible)) {
          actorType := possible;
          break;
        }
        i := i + 1;
      }
    }
  }

  /** Position of a kind in the classifier's order. */
  function OrderIndex(k: ActorKind): nat {
    match k
    case Exploration => 0
    case Conflict => 1
    case Interaction => 2
    case Transition => 3
    case Revelation => 4
  }

  /**
   * A non-default pick names a label present on the actor line, with no
   * label tried before it present; the default is picked exactly when the
   * marker is absent, the line names EXPLORATION, or it names no label.
   */
  lemma SelectedActorMeaning(text: string)
    ensures SelectedActor(text) != Exploration ==>
              Contains(text, SelectedActorMarker)
              && Contains(ActorLine(text), KindName(SelectedActor(text)))
              && forall j :: 0 <= j < OrderIndex(SelectedActor(text)) ==> !Contains(ActorLine(text), KindName(ActorOrder[j]))
    ensures SelectedActor(text) == Exploration <==>
              !Contains(text, SelectedActorMarker)
              || Contains(ActorLine(text), "EXPLORATION")
              || forall k :: k in ActorOrder ==> !Contains(ActorLine(text), KindName(k))
  {
    if Contains(text, SelectedActorMarker) {
      var line := ActorLine(text);
      ActorNamesAgree();
      FirstNamedFromMeaning(line, ActorNames, 0);
      match FirstNamedFrom(line, ActorNames, 0)
      case Some(i) =>
        assert OrderIndex(ActorOrder[i]) == i;
      case None =>
    }
  }
}
