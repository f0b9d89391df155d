/** The cost gate hook (src/hooks/useCostGate.ts): the running cost of a
    conversation and whether the phone-verification modal is shown. The
    handlers are updates of one state record; the two status requests are
    modelled by their outcome, given as a parameter. */
module CostGate {
  import opened Common

  /** The hook's state record. */
  datatype GateState = GateState(
    currentCostCents: int, costGateReached: bool, isVerified: bool,
    verifiedUserId: Option<string>, verifiedUserName: Option<string>,
    hasExistingUser: bool, isLoading: bool, showGateModal: bool)

  /** Nothing spent, no gate, not verified, modal hidden, still loading. */
  const InitialGate := GateState(0, false, false, None, None, false, true, false)

  const DefaultThreshold := 10

  /** `updateCost(newCostCents, gateReached)`, the cost reported by a chat
      reply. */
  function CostUpdated(s: GateState, newCostCents: int, gateReached: bool): (r: GateState)
    ensures r.currentCostCents == newCostCents && r.costGateReached == gateReached
    ensures r.showGateModal <==> s.showGateModal || (gateReached && !s.isVerified)
    ensures r.(currentCostCents := s.currentCostCents, costGateReached := s.costGateReached,
               showGateModal := s.showGateModal) == s
  {
    var open := gateReached && !s.isVerified && !s.showGateModal;
    s.(currentCostCents := newCostCents, costGateReached := gateReached,
       showGateModal := if open then true else s.showGateModal)
  }

  /** `markVerified(userId, userName)` */
  function MarkedVerified(s: GateState, userId: string, userName: string): (r: GateState)
    ensures r.isVerified && !r.showGateModal
    ensures r.verifiedUserId == Some(userId) && r.verifiedUserName == Some(userName)
    ensures r.(isVerified := s.isVerified, verifiedUserId := s.verifiedUserId,
               verifiedUserName := s.verifiedUserName, showGateModal := s.showGateModal) == s
  {
    s.(isVerified := true, verifiedUserId := Some(userId), verifiedUserName := Some(userName), showGateModal := false)
  }

  /** `closeGateModal` and `openGateModal` */
  function ShowModal(s: GateState, show: bool): (r: GateState)
    ensures r.showGateModal == show && r.(showGateModal := s.showGateModal) == s
  {
    s.(showGateModal := show)
  }

  /** `shouldShowGate`: the gate was reached and the visitor is not
      verified. */
  predicate ShouldShowGate(s: GateState) {
    s.costGateReached && !s.isVerified
  }

  /** The outcome of a status request: a JSON body, a non-OK status, or an
      exception. */
  datatype Fetched<T> = Ok(data: T) | NotOk | Threw

  /** The body of /api/verification/session-status. */
  datatype SessionStatus = SessionStatus(
    verified: bool, userId: Option<string>, fullName: Option<string>, hasExistingUser: Option<bool>)

  /** The body of /api/visitor/cost. */
  datatype CostStatus = CostStatus(currentCostCents: Option<int>, costGateReached: Option<bool>)

  /** What `checkSessionStatus` does with its reply. A non-OK status changes
      nothing, so the state keeps `isLoading`; an exception only ends the
      loading. Empty strings read as null. */
  function ApplySessionStatus(s: GateState, r: Fetched<SessionStatus>): (t: GateState)
    ensures r.Ok? ==>
      && t.isVerified == r.data.verified && !t.isLoading
      && t.verifiedUserId == (if Present(r.data.userId) then r.data.userId else None)
      && t.verifiedUserName == (if Present(r.data.fullName) then r.data.fullName else None)
      && t.hasExistingUser == (r.data.hasExistingUser == Some(true))
      && t.currentCostCents == s.currentCostCents && t.costGateReached == s.costGateReached
      && t.showGateModal == s.showGateModal
    ensures r.NotOk? ==> t == s
    ensures r.Threw? ==> t == s.(isLoading := false)
  {
    match r
    case Ok(d) =>
      s.(isVerified := d.verified, verifiedUserId := OrNull(d.userId), verifiedUserName := OrNull(d.fullName),
         hasExistingUser := d.hasExistingUser.GetOr(false), isLoading := false)
    case NotOk => s
    case Threw => s.(isLoading := false)
  }

  /** What `checkCostStatus` does with its reply: only an OK reply changes
      the cost and the gate flag, missing values reading as 0 and false. It
      never opens the modal. */
  function ApplyCostStatus(s: GateState, r: Fetched<CostStatus>): (t: GateState)
    ensures r.Ok? ==> t == s.(currentCostCents := r.data.currentCostCents.GetOr(0),
                              costGateReached := r.data.costGateReached == Some(true))
    ensures !r.Ok? ==> t == s
    ensures t.showGateModal == s.showGateModal
  {
    match r
    case Ok(d) => s.(currentCostCents := d.currentCostCents.GetOr(0), costGateReached := d.costGateReached.GetOr(false))
    case _ => s
  }

  /** Cost updates applied one after the other. */
  function UpdateAll(s: GateState, updates: seq<(int, bool)>): GateState
    decreases |updates|
  {
    if updates == [] then s else UpdateAll(CostUpdated(s, updates[0].0, updates[0].1), updates[1..])
  }

  /** Once verified, no sequence of cost updates reopens the modal, and the
      gate is never due. */
  lemma {:induction false} VerifiedStaysClosed(s: GateState, userId: string, userName: string, updates: seq<(int, bool)>)
    ensures var t := UpdateAll(MarkedVerified(s, userId, userName), updates);
      !t.showGateModal && t.isVerified && !ShouldShowGate(t)
  {
    ClosedStaysClosed(MarkedVerified(s, userId, userName), updates);
  }

  lemma {:induction false} ClosedStaysClosed(s: GateState, updates: seq<(int, bool)>)
    requires s.isVerified && !s.showGateModal
    ensures var t := UpdateAll(s, updates); t.isVerified && !t.showGateModal
    decreases |updates|
  {
    if updates != [] {
      ClosedStaysClosed(CostUpdated(s, updates[0].0, updates[0].1), updates[1..]);
    }
  }

  /** Cost updates never close an open modal; for an unverified visitor the
      modal is open after any update that reports the gate reached. */
  lemma {:induction false} UpdatesNeverClose(s: GateState, updates: seq<(int, bool)>)
    ensures s.showGateModal ==> UpdateAll(s, updates).showGateModal
    ensures !s.isVerified && (exists i | 0 <= i < |updates| :: updates[i].1) ==> UpdateAll(s, updates).showGateModal
    ensures UpdateAll(s, updates).isVerified == s.isVerified
    decreases |updates|
  {
    if updates != [] {
      var s1 := CostUpdated(s, updates[0].0, updates[0].1);
      UpdatesNeverClose(s1, updates[1..]);
      if !s.isVerified && (exists i | 0 <= i < |updates| :: updates[i].1) {
        var i :| 0 <= i < |updates| && updates[i].1;
        if i > 0 {
          assert updates[1..][i - 1].1;
        }
      }
    }
  }

  /** The hook: the state record as fields that its handlers replace. */
  class CostGateHook {
    const visitorId: Option<string>
    const sessionId: Option<string>
    const threshold: int
    var currentCostCents: int
    var costGateReached: bool
    var isVerified: bool
    var verifiedUserId: Option<string>
    var verifiedUserName: Option<string>
    var hasExistingUser: bool
    var isLoading: bool
    var showGateModal: bool

    function State(): GateState
      reads this
    {
      GateState(currentCostCents, costGateReached, isVerified, verifiedUserId, verifiedUserName,
                hasExistingUser, isLoading, showGateModal)
    }

    /** `shouldShowGate` on the current state. */
    predicate GateDue()
      reads this
    {
      ShouldShowGate(State())
    }

    constructor (visitorId: Option<string>, sessionId: Option<string>, threshold: Option<int>)
      ensures this.visitorId == visitorId && this.sessionId == sessionId
      ensures this.threshold == threshold.GetOr(DefaultThreshold)
      ensures State() == InitialGate
    {
      this.visitorId := visitorId;
      this.sessionId := sessionId;
      this.threshold := threshold.GetOr(DefaultThreshold);
      currentCostCents := 0;
      costGateReached := false;
      isVerified := false;
      verifiedUserId := None;
      verifiedUserName := None;
      hasExistingUser := false;
      isLoading := true;
      showGateModal := false;
    }

    method UpdateCost(newCostCents: int, gateReached: bool)
      modifies this
      ensures State() == CostUpdated(old(State()), newCostCents, gateReached)
    {
      var open := gateReached && !isVerified && !showGateModal;
      currentCostCents := newCostCents;
      costGateReached := gateReached;
      if open {
        showGateModal := true;
      }
    }

    method MarkVerified(userId: string, userName: string)
      modifies this
      ensures State() == MarkedVerified(old(State()), userId, userName)
    {
      isVerified := true;
      verifiedUserId := Some(userId);
      verifiedUserName := Some(userName);
      showGateModal := false;
    }

    method CloseGateModal()
      modifies this
      ensures State() == ShowModal(old(State()), false)
    {
      showGateModal := false;
    }

    method OpenGateModal()
      modifies this
      ensures State() == ShowModal(old(State()), true)
    {
      showGateModal := true;
    }

    /** `checkSessionStatus`: skipped unless both ids are present. */
    method CheckSessionStatus(reply: Fetched<SessionStatus>)
      modifies this
      ensures State() == if Present(visitorId) && Present(sessionId) then ApplySessionStatus(old(State()), reply) else old(State())
    {
      if !Present(visitorId) || !Present(sessionId) {
        return;
      }
      match reply {
        case Ok(d) =>
          isVerified := d.verified;
          verifiedUserId := OrNull(d.userId);
          verifiedUserName := OrNull(d.fullName);
          hasExistingUser := d.hasExistingUser.GetOr(false);
          isLoading := false;
        case NotOk =>
        case Threw =>
          isLoading := false;
      }
    }

    /** `checkCostStatus`: skipped unless the visitor id is present. */
    method CheckCostStatus(reply: Fetched<CostStatus>)
      modifies this
      ensures State() == if Present(visitorId) then ApplyCostStatus(old(State()), reply) else old(State())
    {
      if !Present(visitorId) {
        return;
      }
      if reply.Ok? {
        currentCostCents := reply.data.currentCostCents.GetOr(0);
        costGateReached := reply.data.costGateReached.GetOr(false);
      }
    }
  }
}
