/** The node state machine: every state change of a life-event node is checked against this table. */
module StateMachine {

  datatype NodeState =
    | Pending | Ready | WaitingForHuman | Submitting | Submitted | Processing | Cleared | Completed
    | Blocked | DocumentMissing | Stalled | WaitingForParent | Rejected

  function Allowed(current: NodeState): set<NodeState> {
    match current
    case Pending => {Ready, WaitingForParent, DocumentMissing, Blocked}
    case Ready => {WaitingForHuman, WaitingForParent, DocumentMissing, Submitting, Pending, Blocked}
    case WaitingForHuman => {Submitting, Blocked, DocumentMissing, Rejected, Ready}
    case Submitting => {Submitted, Processing, Stalled, Blocked, Rejected, DocumentMissing}
    case Submitted =>
      {Processing, Cleared, Completed, Blocked, DocumentMissing, Stalled, Rejected, WaitingForParent}
    case Processing => {Cleared, Completed, Blocked, DocumentMissing, Stalled, Rejected, WaitingForParent}
    case WaitingForParent =>
      {Processing, Completed, Cleared, Stalled, DocumentMissing, Ready, WaitingForHuman, Blocked}
    case DocumentMissing => {Ready, WaitingForHuman, WaitingForParent, Blocked, Submitting}
    case Stalled =>
      {Submitting, Submitted, Processing, WaitingForHuman, WaitingForParent, Blocked, Cleared, Completed, Ready,
       DocumentMissing, Rejected}
    case Blocked => {WaitingForHuman, DocumentMissing, Ready, Submitting, Rejected}
    case Rejected => {WaitingForHuman, Ready}
    case Cleared => {Completed}
    case Completed => {}
  }

  /** assert_transition accepts staying put as well as every edge of the table. */
  predicate CanMove(current: NodeState, target: NodeState) {
    current == target || target in Allowed(current)
  }

  predicate Done(state: NodeState) {
    state == Cleared || state == Completed
  }

  /** The states that keep, or take, a blocked reason. */
  predicate Attention(state: NodeState) {
    state == Blocked || state == DocumentMissing || state == Stalled || state == Rejected
  }

  /** The table read by column: the states a state may be entered from. */
  function Sources(target: NodeState): set<NodeState> {
    match target
    case Pending => {Ready}
    case Ready => {Pending, WaitingForHuman, WaitingForParent, DocumentMissing, Stalled, Blocked, Rejected}
    case WaitingForHuman => {Ready, WaitingForParent, DocumentMissing, Stalled, Blocked, Rejected}
    case Submitting => {Ready, WaitingForHuman, DocumentMissing, Stalled, Blocked}
    case Submitted => {Submitting, Stalled}
    case Processing => {Submitting, Submitted, WaitingForParent, Stalled}
    case Cleared => {Submitted, Processing, WaitingForParent, Stalled}
    case Completed => {Submitted, Processing, WaitingForParent, Stalled, Cleared}
    case Blocked =>
      {Pending, Ready, WaitingForHuman, Submitting, Submitted, Processing, WaitingForParent, DocumentMissing, Stalled}
    case DocumentMissing =>
      {Pending, Ready, WaitingForHuman, Submitting, Submitted, Processing, WaitingForParent, Stalled, Blocked}
    case Stalled => {Submitting, Submitted, Processing, WaitingForParent}
    case WaitingForParent => {Pending, Ready, Submitted, Processing, DocumentMissing, Stalled}
    case Rejected => {WaitingForHuman, Submitting, Submitted, Processing, Stalled, Blocked}
  }

  /** Rows and columns of the table agree. */
  lemma TableByColumn(current: NodeState, target: NodeState)
    ensures target in Allowed(current) <==> current in Sources(target)
  {
  }
}
