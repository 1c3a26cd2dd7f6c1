/** The intention card (src/components/canvas/IntentionCard.tsx): what a recognised
    transcript does to the store, when listening starts by itself, the buttons per
    status, the drag gesture, and where the card lays out its task cards. */
module IntentionCard {
  import opened Util
  import opened CanvasTypes
  import opened CanvasStore

  /** The characters `String.prototype.trim` removes: ECMAScript white space and line
      terminators. */
  predicate IsTrimmed(c: char) {
    c == ' ' || c == '\t' || c == '\n' || c == '\r' || c == '\U{000B}' || c == '\U{000C}'
    || c == '\U{00A0}' || c == '\U{1680}' || ('\U{2000}' <= c <= '\U{200A}') || c == '\U{2028}'
    || c == '\U{2029}' || c == '\U{202F}' || c == '\U{205F}' || c == '\U{3000}' || c == '\U{FEFF}'
  }

  /** `s.trim()` is truthy: some character survives trimming. */
  function HasContent(s: string): (b: bool)
    ensures b <==> exists i :: 0 <= i < |s| && !IsTrimmed(s[i])
    decreases |s|
  {
    if |s| == 0 then false
    else if !IsTrimmed(s[0]) then true
    else (assert forall i :: 1 <= i < |s| ==> s[i] == s[1..][i - 1]; HasContent(s[1..]))
  }

  /** The update a final transcript makes to its intention. */
  function TranscriptPatch(transcript: string): IntentionPatch {
    NoIntentionChanges.(originalVoiceInput := Some(transcript), title := Some(transcript),
                        status := Some(Processing))
  }

  /** `onResult(finalTranscript, isFinal)`: a final transcript with content becomes the
      intention's voice input and title and sets it processing, and the active
      intention is cleared; anything else changes nothing. */
  function OnResult(s: CanvasStoreState, intentionId: string, transcript: string, isFinal: bool, now: nat)
    : (r: CanvasStoreState)
    ensures !(isFinal && HasContent(transcript)) ==> r == s
    ensures isFinal && HasContent(transcript) ==>
      && r.activeIntention.None? && !r.isCreatingIntention
      && |r.intentions| == |s.intentions|
      && forall i :: 0 <= i < |s.intentions| ==>
           r.intentions[i] == if s.intentions[i].id == intentionId
                              then s.intentions[i].(originalVoiceInput := transcript, title := transcript,
                                                    status := Processing, updatedAt := now)
                              else s.intentions[i]
  {
    if isFinal && HasContent(transcript) then
      SetActiveIntention(UpdateIntention(s, intentionId, TranscriptPatch(transcript), now), None)
    else s
  }

  /** A transcript made only of characters `trim` removes (the empty one included) is
      ignored even when final. */
  lemma BlankTranscriptIgnored(s: CanvasStoreState, intentionId: string, transcript: string, now: nat)
    requires forall i :: 0 <= i < |transcript| ==> IsTrimmed(transcript[i])
    ensures OnResult(s, intentionId, transcript, true, now) == s
  {
  }

  /** Listening starts by itself only for a listening, active card on a browser that
      supports recognition. */
  function AutoListens(status: IntentionStatus, isActive: bool, isSupported: bool): (r: bool)
    ensures r <==> isActive && OffersStartRecording(status, false, isSupported)
    ensures r ==> !OffersMarkComplete(status)
  {
    status == Listening && isActive && isSupported
  }

  /** Once a transcript is accepted the card no longer auto-listens: the intention is
      processing and no intention is active any more. */
  lemma AcceptedTranscriptStopsListening(s: CanvasStoreState, k: nat, transcript: string, now: nat,
                                         isSupported: bool)
    requires k < |s.intentions| && HasContent(transcript)
    ensures var r := OnResult(s, s.intentions[k].id, transcript, true, now);
      && r.intentions[k].status == Processing
      && r.activeIntention.None?
      && !AutoListens(r.intentions[k].status, true, isSupported)
  {
  }

  /** `getStatusIcon()` */
  function StatusIcon(s: IntentionStatus): string {
    match s
    case Listening => "\U{1F3A4}"
    case Processing => "\U{1F916}"
    case Active => "\U{1F3AF}"
    case Fulfilled => "\U{2705}"
  }

  /** `getStatusText()` */
  function StatusText(s: IntentionStatus, isListening: bool): string {
    match s
    case Listening => if isListening then "Listening..." else "Ready to listen"
    case Processing => "AI Processing..."
    case Active => "Active"
    case Fulfilled => "Fulfilled"
  }

  /** Each status has its own icon and text. */
  lemma StatusPresentationDistinct(a: IntentionStatus, b: IntentionStatus, la: bool, lb: bool)
    ensures StatusIcon(a) == StatusIcon(b) <==> a == b
    ensures StatusText(a, la) == StatusText(b, lb) ==> a == b
  {
  }

  /** Mark Complete is shown only for an active intention. */
  predicate OffersMarkComplete(status: IntentionStatus) {
    status == Active
  }

  /** Start Recording is shown for a listening intention when not already listening
      and recognition is supported. */
  predicate OffersStartRecording(status: IntentionStatus, isListening: bool, isSupported: bool) {
    status == Listening && !isListening && isSupported
  }

  /** `handleComplete`: the intention becomes fulfilled. */
  function HandleComplete(s: CanvasStoreState, intention: Intention, now: nat): (r: CanvasStoreState)
    ensures |r.intentions| == |s.intentions|
    ensures forall i :: 0 <= i < |s.intentions| ==>
      r.intentions[i] == if s.intentions[i].id == intention.id
                         then s.intentions[i].(status := Fulfilled, updatedAt := now)
                         else s.intentions[i]
  {
    UpdateIntention(s, intention.id, NoIntentionChanges.(status := Some(Fulfilled)), now)
  }

  /** A fulfilled intention offers neither Mark Complete nor Start Recording, and does
      not auto-listen: it is final for the card's controls. */
  lemma FulfilledIsFinal(s: CanvasStoreState, k: nat, now: nat, isListening: bool, isActive: bool, isSupported: bool)
    requires k < |s.intentions|
    ensures var st := HandleComplete(s, s.intentions[k], now).intentions[k].status;
      && st == Fulfilled
      && !OffersMarkComplete(st)
      && !OffersStartRecording(st, isListening, isSupported)
      && !AutoListens(st, isActive, isSupported)
  {
  }

  /** `handleDragEnd`: the intention moves by the drag offset from the card's own
      position; nothing else changes. */
  function HandleDragEnd(s: CanvasStoreState, intention: Intention, offset: Position, now: nat)
    : (r: CanvasStoreState)
    ensures |r.intentions| == |s.intentions|
    ensures forall i :: 0 <= i < |s.intentions| ==>
      r.intentions[i] == if s.intentions[i].id == intention.id
                         then s.intentions[i].(position := Offset(intention.position, offset), updatedAt := now)
                         else s.intentions[i]
  {
    UpdateIntention(s, intention.id, NoIntentionChanges.(position := Some(Offset(intention.position, offset))), now)
  }

  const TaskColumnOffset := 50.0
  const TaskListTop := 250.0
  const TaskRowSpacing := 120.0

  /** Where the card places its task card number `index`. */
  function TaskCardPosition(parent: Position, index: nat): (r: Position)
    ensures r.x == parent.x + 50.0
    ensures r.y - parent.y == 250.0 + (index as real) * 120.0
  {
    Position(parent.x + TaskColumnOffset, parent.y + TaskListTop + (index as real) * TaskRowSpacing)
  }

  /** The parent positions of all task cards, in task order. */
  function TaskCardLayout(intention: Intention): (r: seq<Position>)
    ensures |r| == |intention.tasks|
    ensures forall i :: 0 <= i < |r| ==> r[i] == TaskCardPosition(intention.position, i)
  {
    seq(|intention.tasks|, i requires 0 <= i < |intention.tasks| => TaskCardPosition(intention.position, i))
  }

  /** Task cards share one column below the card and are 120 apart, so later tasks are
      strictly lower. */
  lemma TaskCardsStackDownwards(intention: Intention)
    ensures var layout := TaskCardLayout(intention);
      forall i, j :: 0 <= i < j < |layout| ==>
        layout[i].x == layout[j].x && layout[j].y - layout[i].y == ((j - i) as real) * 120.0
        && layout[i].y < layout[j].y
  {
  }
}
