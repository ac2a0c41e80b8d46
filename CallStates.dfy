/** The state of a call (Sources/VoiceSDK/Public/CallState.swift): its custom equality, which
    ignores the end reason of `disconnected`, and its description. */
module CallStates {
  import opened EndReasons

  datatype CallState = Idle | Connecting | Ringing | Ongoing | Disconnected(reason: CallEndReason)

  /** The SDK's `==` on call states. */
  predicate Same(a: CallState, b: CallState)
  {
    match (a, b)
    case (Idle, Idle) => true
    case (Connecting, Connecting) => true
    case (Ringing, Ringing) => true
    case (Ongoing, Ongoing) => true
    case (Disconnected(_), Disconnected(_)) => true
    case _ => false
  }

  /** The position of a state's case in the declaration, an independent account of "same case". */
  function CaseIndex(s: CallState): (k: nat)
    ensures k < 5
  {
    match s
    case Idle => 0
    case Connecting => 1
    case Ringing => 2
    case Ongoing => 3
    case Disconnected(_) => 4
  }

  /** `==` holds exactly between states of the same case. */
  lemma SameIffSameCase(a: CallState, b: CallState)
    ensures Same(a, b) <==> CaseIndex(a) == CaseIndex(b)
  {
  }

  /** `==` is an equivalence relation. */
  lemma SameIsEquivalence(a: CallState, b: CallState, c: CallState)
    ensures Same(a, a)
    ensures Same(a, b) ==> Same(b, a)
    ensures Same(a, b) && Same(b, c) ==> Same(a, c)
  {
  }

  /** Any two disconnected states are equal, whatever their reasons. */
  lemma DisconnectedAlwaysSame(r1: CallEndReason, r2: CallEndReason)
    ensures Same(Disconnected(r1), Disconnected(r2))
  {
  }

  /** Away from `disconnected`, `==` is structural equality. */
  lemma SameIsEqualityOutsideDisconnected(a: CallState, b: CallState)
    requires !a.Disconnected?
    ensures Same(a, b) <==> a == b
  {
  }

  const DisconnectedHead := "Disconnected( type: "
  const MessageLabel := ", message: \""
  const CategoryLabel := "\", category: "

  /** `description`. */
  function Description(s: CallState): string
  {
    match s
    case Idle => "IDLE"
    case Connecting => "Connecting"
    case Ringing => "Ringing"
    case Ongoing => "Ongoing"
    case Disconnected(r) =>
      DisconnectedHead + ReasonRaw(r.reasonType) + MessageLabel + r.message
      + CategoryLabel + CategoryRaw(ReasonCategory(r)) + " )"
  }

  /** The description of a disconnected state starts with the raw type, and the end reason's
      message stands at a fixed place after it. */
  lemma DisconnectedDescriptionEmbedsReason(r: CallEndReason)
    ensures var d := Description(Disconnected(r));
      var typeEnd := |DisconnectedHead| + |ReasonRaw(r.reasonType)|;
      var msgStart := typeEnd + |MessageLabel|;
      |d| > msgStart + |r.message|
      && d[|DisconnectedHead|..typeEnd] == ReasonRaw(r.reasonType)
      && d[msgStart..msgStart + |r.message|] == r.message
  {
  }

  /** The description tells the cases apart: equal descriptions mean `==` states. */
  lemma DescriptionSeparatesCases(a: CallState, b: CallState)
    requires Description(a) == Description(b)
    ensures Same(a, b)
  {
  }
}
