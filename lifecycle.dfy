/** The investment lifecycle as the client sees it. The client writes a status
    itself only when an admin confirms (`approved`) or rejects (`denied`) a
    pending investment; withdraw and reinvest are remote procedures whose effect
    on the row the client only learns by re-fetching, so they change nothing here. */
module Lifecycle {
  import opened Investments

  datatype Action = Confirm | Reject | Withdraw | Reinvest

  /** The controls offered for a row: confirm/reject on `pending` rows of the
      admin table, withdraw/reinvest on `matured` rows of the investor pages. */
  function Offered(s: Status): (acts: set<Action>)
    ensures Confirm in acts <==> s == Pending
    ensures Reject in acts <==> s == Pending
    ensures Withdraw in acts <==> s == Matured
    ensures Reinvest in acts <==> s == Matured
  {
    if s == Pending then {Confirm, Reject}
    else if s == Matured then {Withdraw, Reinvest}
    else {}
  }

  /** `withdrawn` and `reinvested` rows show only a label. */
  predicate IsTerminalLabel(s: Status) {
    s == Withdrawn || s == Reinvested
  }

  /** The status the client itself writes when an offered action is taken. */
  function ClientWrite(s: Status, a: Action): (t: Status)
    requires a in Offered(s)
    ensures a == Confirm ==> t == Approved
    ensures a == Reject ==> t == Denied
    ensures a == Withdraw || a == Reinvest ==> t == s
  {
    match a
    case Confirm => Approved
    case Reject => Denied
    case Withdraw => s
    case Reinvest => s
  }

  /** Clicking through a sequence of controls: an action not offered for the
      current status has no control and changes nothing. */
  function Run(s: Status, acts: seq<Action>): Status
    decreases |acts|
  {
    if acts == [] then s
    else if acts[0] in Offered(s) then Run(ClientWrite(s, acts[0]), acts[1..])
    else Run(s, acts[1..])
  }

  /** Neither admin decision leaves a row that offers any further control
      until the backend changes it. */
  lemma DecisionIsFinal(a: Action)
    requires a == Confirm || a == Reject
    ensures Offered(ClientWrite(Pending, a)) == {}
  {
  }

  /** Terminal labels offer nothing. */
  lemma TerminalOffersNothing(s: Status)
    requires IsTerminalLabel(s)
    ensures Offered(s) == {}
  {
  }

  /** Whatever is clicked, the client moves a pending row at most once, to
      `approved` or `denied`, and never moves a row in any other status. */
  lemma {:induction false} RunReach(s: Status, acts: seq<Action>)
    ensures s != Pending ==> Run(s, acts) == s
    ensures s == Pending ==> Run(s, acts) in {Pending, Approved, Denied}
    decreases |acts|
  {
    if acts != [] {
      if acts[0] in Offered(s) {
        var t := ClientWrite(s, acts[0]);
        RunReach(t, acts[1..]);
      } else {
        RunReach(s, acts[1..]);
      }
    }
  }
}
