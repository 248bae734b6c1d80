/** The lazy binder to the native ray-trace interface and the guarded trace
    entry points built on it.

    The host facilities the binder calls into are parameters here: the
    outcome of the interface lookup and of creating the three virtual-call
    delegates (an Attempt), the host platform, and the native trace call
    itself (a function from the request to the reply). */
module RayTrace {

  import opened Wrappers
  import opened Text
  import opened Masks
  import opened TraceTypes

  /** The name under which the native interface is looked up. */
  const InterfaceName: string := "CRayTraceInterface001"

  // ---------------------------------------------------------------------
  // Virtual-table slots
  // ---------------------------------------------------------------------

  /** The calling-convention family of the host process. */
  datatype Platform = Windows | Itanium

  /** The virtual-table slot of each of the three trace functions. */
  datatype SlotTable = SlotTable(traceShape: nat, traceEndShape: nat, traceHullShape: nat)

  function Slots(p: Platform): SlotTable
  {
    match p
    case Windows => SlotTable(1, 2, 3)
    case Itanium => SlotTable(2, 3, 4)
  }

  /** The Itanium layout has one extra leading slot, so every index is the
      Windows index plus one, and the three indices are distinct. */
  lemma SlotsOffsetByOne()
    ensures Slots(Windows) == SlotTable(1, 2, 3)
    ensures forall p: Platform :: Slots(p).traceShape < Slots(p).traceEndShape < Slots(p).traceHullShape
    ensures Slots(Itanium).traceShape == Slots(Windows).traceShape + 1
    ensures Slots(Itanium).traceEndShape == Slots(Windows).traceEndShape + 1
    ensures Slots(Itanium).traceHullShape == Slots(Windows).traceHullShape + 1
  {
  }

  /** A callable bound to one virtual-table slot of the interface at
      `handle`. */
  datatype Delegate = Delegate(handle: int, slot: nat)

  /** The three delegates, in the order they are created. */
  datatype DelegateKind = ShapeDelegate | EndShapeDelegate | HullShapeDelegate

  // ---------------------------------------------------------------------
  // What the host does when asked
  // ---------------------------------------------------------------------

  /** The outcome of looking the interface up: the lookup throws, returns
      null, returns an object that cannot be unboxed as an address (the cast
      throws), or returns an address (0 being the zero handle). */
  datatype FactoryOutcome =
    | FactoryThrows(message: string)
    | FactoryNull
    | NotAHandle(message: string)
    | Resolved(address: int)

  /** The outcome of creating the delegates: all succeed, or the creation of
      one of them throws (the ones created before it stay assigned). */
  datatype BindOutcome = BindOk | BindThrows(at: DelegateKind, message: string)

  /** What the host answers to one initialisation attempt. */
  datatype Attempt = Attempt(factory: FactoryOutcome, bind: BindOutcome)

  // ---------------------------------------------------------------------
  // The binder's state and its initialisation step
  // ---------------------------------------------------------------------

  /** The process-wide binder fields. */
  datatype BinderState = BinderState(
    handle: int,
    loaded: bool,
    gaveUp: bool,
    retryCount: nat,
    initError: Option<string>,
    traceShape: Option<Delegate>,
    traceEndShape: Option<Delegate>,
    traceHullShape: Option<Delegate>)
  {
    /** Initialisation has reached one of its two final states. */
    predicate Settled()
    {
      loaded || gaveUp
    }
  }

  /** The state before the first attempt. */
  const Unbound: BinderState := BinderState(0, false, false, 0, None, None, None, None)

  function FactoryExceptionMessage(message: string): string
  {
    "MetaFactory exception: " + message
  }

  const NullPrefix: string := "MetaFactory null (attempt "

  function FactoryNullMessage(attempt: nat): string
  {
    NullPrefix + NatToString(attempt) + ")"
  }

  const ZeroHandleMessage: string := InterfaceName + " handle is zero."

  /** The null-lookup error carries the attempt number, which can be read
      back from it. */
  lemma {:induction false} FactoryNullMessageCarriesAttempt(attempt: nat)
    ensures var m := FactoryNullMessage(attempt);
      && |NullPrefix| < |m|
      && m[..|NullPrefix|] == NullPrefix
      && m[|m| - 1] == ')'
      && (forall i :: |NullPrefix| <= i < |m| - 1 ==> '0' <= m[i] <= '9')
      && ParseNat(m[|NullPrefix|..|m| - 1]) == attempt
  {
    var m := FactoryNullMessage(attempt);
    assert m[|NullPrefix|..|m| - 1] == NatToString(attempt);
    ParseNatToString(attempt);
  }

  /** The binder invariant: never both loaded and given up; a non-zero
      handle exactly when loaded; a loaded binder has its three delegates on
      the platform's slots and no error; a retryable binder has no delegates
      and, after at least one attempt, the null-lookup error of its last
      attempt; a binder that gave up has an error. */
  ghost predicate Inv(s: BinderState, p: Platform)
  {
    && !(s.loaded && s.gaveUp)
    && (s.loaded <==> s.handle != 0)
    && (s.loaded ==>
          && s.initError == None
          && s.traceShape == Some(Delegate(s.handle, Slots(p).traceShape))
          && s.traceEndShape == Some(Delegate(s.handle, Slots(p).traceEndShape))
          && s.traceHullShape == Some(Delegate(s.handle, Slots(p).traceHullShape)))
    && (!s.Settled() ==>
          && s.traceShape == None && s.traceEndShape == None && s.traceHullShape == None
          && s.initError == (if s.retryCount == 0 then None else Some(FactoryNullMessage(s.retryCount))))
    && (s.gaveUp ==> s.initError.Some?)
  }

  /** The delegates after creating them in order until the bind outcome says
      one throws. */
  function BindDelegates(s: BinderState, p: Platform, bind: BindOutcome): (r: BinderState)
    ensures r.(traceShape := s.traceShape, traceEndShape := s.traceEndShape,
               traceHullShape := s.traceHullShape) == s
    ensures bind.BindOk? ==>
      && r.traceShape == Some(Delegate(s.handle, Slots(p).traceShape))
      && r.traceEndShape == Some(Delegate(s.handle, Slots(p).traceEndShape))
      && r.traceHullShape == Some(Delegate(s.handle, Slots(p).traceHullShape))
    ensures bind.BindThrows? && bind.at == ShapeDelegate ==> r == s
    ensures bind.BindThrows? && bind.at == EndShapeDelegate ==>
      && r.traceShape == Some(Delegate(s.handle, Slots(p).traceShape))
      && r.traceEndShape == s.traceEndShape && r.traceHullShape == s.traceHullShape
    ensures bind.BindThrows? && bind.at == HullShapeDelegate ==>
      && r.traceShape == Some(Delegate(s.handle, Slots(p).traceShape))
      && r.traceEndShape == Some(Delegate(s.handle, Slots(p).traceEndShape))
      && r.traceHullShape == s.traceHullShape
  {
    var shape := Some(Delegate(s.handle, Slots(p).traceShape));
    var endShape := Some(Delegate(s.handle, Slots(p).traceEndShape));
    var hullShape := Some(Delegate(s.handle, Slots(p).traceHullShape));
    match bind
    case BindThrows(ShapeDelegate, _) => s
    case BindThrows(EndShapeDelegate, _) => s.(traceShape := shape)
    case BindThrows(HullShapeDelegate, _) => s.(traceShape := shape, traceEndShape := endShape)
    case BindOk => s.(traceShape := shape, traceEndShape := endShape, traceHullShape := hullShape)
  }

  /** One call of the initialisation routine. A settled binder is left as it
      is. Otherwise the attempt is counted, and then: a lookup exception, a
      result that is not an address, or a zero handle gives up for good, a null lookup stays retryable with an
      error naming the attempt, and a non-zero handle whose delegates bind
      loads the binder, while a delegate that fails to bind gives up with the
      handle cleared. */
  function InitStep(s: BinderState, p: Platform, a: Attempt): (r: BinderState)
    ensures s.Settled() ==> r == s
    ensures !s.Settled() ==> r.retryCount == s.retryCount + 1
    ensures Inv(s, p) ==> Inv(r, p)
    ensures !s.Settled() && a.factory.FactoryNull? ==>
      !r.Settled() && r.initError == Some(FactoryNullMessage(r.retryCount))
    ensures !s.Settled() && (a.factory.FactoryThrows? || a.factory.NotAHandle? || a.factory == Resolved(0)) ==>
      r.gaveUp && !r.loaded
    ensures !s.Settled() && a.factory.Resolved? && a.factory.address != 0 ==>
      (r.loaded <==> a.bind.BindOk?) && (r.gaveUp <==> a.bind.BindThrows?)
    ensures !s.Settled() && a.factory.Resolved? && a.factory.address != 0 && a.bind.BindOk? ==>
      r.handle == a.factory.address && r.initError == None
    ensures !s.Settled() && a.factory.Resolved? && a.bind.BindThrows? ==>
      r.handle == 0 && r.initError.Some?
    ensures !s.Settled() && a.factory.FactoryThrows? ==>
      r.initError == Some(FactoryExceptionMessage(a.factory.message))
    ensures !s.Settled() && a.factory.NotAHandle? ==> r.initError == Some(a.factory.message)
    ensures !s.Settled() && a.factory == Resolved(0) ==> r.initError == Some(ZeroHandleMessage)
    ensures !s.Settled() && a.factory.Resolved? && a.factory.address != 0 && a.bind.BindThrows? ==>
      r.initError == Some(a.bind.message)
  {
    if s.Settled() then s
    else
      var n := s.retryCount + 1;
      var counted := s.(retryCount := n);
      match a.factory
      case FactoryThrows(m) =>
        counted.(gaveUp := true, initError := Some(FactoryExceptionMessage(m)))
      case FactoryNull =>
        counted.(initError := Some(FactoryNullMessage(n)))
      case NotAHandle(m) =>
        counted.(loaded := false, handle := 0, initError := Some(m), gaveUp := true)
      case Resolved(h) =>
        if h == 0 then
          counted.(handle := 0, gaveUp := true, initError := Some(ZeroHandleMessage))
        else
          var bound := BindDelegates(counted.(handle := h), p, a.bind);
          match a.bind
          case BindOk => bound.(loaded := true, initError := None)
          case BindThrows(_, m) =>
            bound.(loaded := false, handle := 0, initError := Some(m), gaveUp := true)
  }

  /** The state after a series of initialisation calls. */
  function Attempts(s: BinderState, p: Platform, attempts: seq<Attempt>): BinderState
    decreases |attempts|
  {
    if attempts == [] then s else Attempts(InitStep(s, p, attempts[0]), p, attempts[1..])
  }

  /** Once loaded or given up, no further call changes anything: the
      counter, the handle, the flags, the error and the delegates stay. */
  lemma {:induction false} SettledIsFinal(s: BinderState, p: Platform, attempts: seq<Attempt>)
    requires s.Settled()
    ensures Attempts(s, p, attempts) == s
    decreases |attempts|
  {
    if attempts != [] {
      SettledIsFinal(s, p, attempts[1..]);
    }
  }

  /** Every sequence of calls keeps the invariant, so the binder is never
      both loaded and given up. */
  lemma {:induction false} AttemptsKeepInv(s: BinderState, p: Platform, attempts: seq<Attempt>)
    requires Inv(s, p)
    ensures Inv(Attempts(s, p, attempts), p)
    ensures !(Attempts(s, p, attempts).loaded && Attempts(s, p, attempts).gaveUp)
    decreases |attempts|
  {
    if attempts != [] {
      AttemptsKeepInv(InitStep(s, p, attempts[0]), p, attempts[1..]);
    }
  }

  /** The counter grows by at most one per call, never shrinks, and a binder
      that is still retryable has counted every call. */
  lemma {:induction false} AttemptsCounted(s: BinderState, p: Platform, attempts: seq<Attempt>)
    ensures s.retryCount <= Attempts(s, p, attempts).retryCount <= s.retryCount + |attempts|
    ensures !Attempts(s, p, attempts).Settled() ==>
      Attempts(s, p, attempts).retryCount == s.retryCount + |attempts|
    decreases |attempts|
  {
    if attempts != [] {
      var next := InitStep(s, p, attempts[0]);
      AttemptsCounted(next, p, attempts[1..]);
      if next.Settled() {
        SettledIsFinal(next, p, attempts[1..]);
      }
    }
  }

  /** Null lookups are retried on every call, forever: after any number of
      them the binder is still retryable, has counted each one, and reports
      the number of the last. */
  lemma {:induction false} NullLookupsRetry(s: BinderState, p: Platform, attempts: seq<Attempt>)
    requires !s.Settled()
    requires forall k :: 0 <= k < |attempts| ==> attempts[k].factory.FactoryNull?
    ensures var r := Attempts(s, p, attempts);
      && !r.Settled()
      && r.retryCount == s.retryCount + |attempts|
      && (attempts != [] ==> r.initError == Some(FactoryNullMessage(r.retryCount)))
      && r.handle == s.handle
    decreases |attempts|
  {
    if attempts != [] {
      NullLookupsRetry(InitStep(s, p, attempts[0]), p, attempts[1..]);
    }
  }

  /** A lookup exception, an unusable lookup result or a zero handle is
      terminal: whatever the host answers later, no further attempt is made
      and the binder stays given up, unloaded, with the counter of that
      call. */
  lemma {:induction false} FatalLookupIsTerminal(s: BinderState, p: Platform, first: Attempt, later: seq<Attempt>)
    requires !s.Settled()
    requires first.factory.FactoryThrows? || first.factory.NotAHandle? || first.factory == Resolved(0)
    ensures var r := Attempts(s, p, [first] + later);
      && r == InitStep(s, p, first)
      && r.gaveUp && !r.loaded && r.retryCount == s.retryCount + 1
  {
    assert ([first] + later)[1..] == later;
    SettledIsFinal(InitStep(s, p, first), p, later);
  }

  /** A binder that keeps getting null lookups loads as soon as the host
      hands out a good interface whose delegates bind. */
  lemma {:induction false} LoadsAfterRetries(s: BinderState, p: Platform, nulls: seq<Attempt>, good: Attempt)
    requires Inv(s, p) && !s.Settled()
    requires forall k :: 0 <= k < |nulls| ==> nulls[k].factory.FactoryNull?
    requires good.factory.Resolved? && good.factory.address != 0 && good.bind.BindOk?
    ensures var r := Attempts(s, p, nulls + [good]);
      && r.loaded && !r.gaveUp && r.initError == None
      && r.handle == good.factory.address
      && r.retryCount == s.retryCount + |nulls| + 1
    decreases |nulls|
  {
    if nulls == [] {
      assert nulls + [good] == [good];
    } else {
      var next := InitStep(s, p, nulls[0]);
      assert (nulls + [good])[1..] == nulls[1..] + [good];
      LoadsAfterRetries(next, p, nulls[1..], good);
    }
  }

  // ---------------------------------------------------------------------
  // The binder object
  // ---------------------------------------------------------------------

  /** A request to the native trace: the delegate called, the interface
      handle, the two vectors (start and end, or start and angles), the
      entity to ignore (0 for none) and the options. */
  datatype TraceRequest = TraceRequest(
    fn: Delegate,
    handle: int,
    origin: Vec,
    target: Vec,
    ignoreEntity: int,
    options: TraceOptions)

  class RayTraceBinder {
    const platform: Platform
    var handle: int
    var loaded: bool
    var gaveUp: bool
    var initRetryCount: nat
    var initError: Option<string>
    var traceShape: Option<Delegate>
    var traceEndShape: Option<Delegate>
    var traceHullShape: Option<Delegate>

    function State(): BinderState
      reads this
    {
      BinderState(handle, loaded, gaveUp, initRetryCount, initError,
                  traceShape, traceEndShape, traceHullShape)
    }

    ghost predicate Valid()
      reads this
    {
      Inv(State(), platform)
    }

    constructor (platform: Platform)
      ensures this.platform == platform
      ensures State() == Unbound && Valid()
    {
      this.platform := platform;
      handle, loaded, gaveUp, initRetryCount, initError := 0, false, false, 0, None;
      traceShape, traceEndShape, traceHullShape := None, None, None;
    }

    /** Binds the interface unless already loaded or given up. */
    method Initialize(attempt: Attempt)
      requires Valid()
      modifies this
      ensures Valid()
      ensures State() == InitStep(old(State()), platform, attempt)
    {
      if loaded { return; }
      if gaveUp { return; }

      initRetryCount := initRetryCount + 1;

      match attempt.factory {
        case FactoryThrows(m) =>
          gaveUp := true;
          initError := Some(FactoryExceptionMessage(m));
          return;
        case FactoryNull =>
          initError := Some(FactoryNullMessage(initRetryCount));
          return;
        case NotAHandle(m) =>
          loaded := false;
          handle := 0;
          initError := Some(m);
          gaveUp := true;
          return;
        case Resolved(h) =>
          handle := h;
          if handle == 0 {
            gaveUp := true;
            initError := Some(ZeroHandleMessage);
            return;
          }
          var thrown := BindVTable(attempt.bind);
          if thrown.Some? {
            loaded := false;
            handle := 0;
            initError := thrown;
            gaveUp := true;
            return;
          }
          loaded := true;
          initError := None;
      }
    }

    /** Creates the three delegates on the platform's slots, in order; a
        creation that throws stops the sequence and is reported. */
    method BindVTable(bind: BindOutcome) returns (thrown: Option<string>)
      modifies this
      ensures State() == BindDelegates(old(State()), platform, bind)
      ensures thrown == (if bind.BindThrows? then Some(bind.message) else None)
    {
      var traceShapeIdx, traceEndShapeIdx, traceHullShapeIdx;
      if platform == Windows {
        traceShapeIdx, traceEndShapeIdx, traceHullShapeIdx := 1, 2, 3;
      } else {
        traceShapeIdx, traceEndShapeIdx, traceHullShapeIdx := 2, 3, 4;
      }

      if bind.BindThrows? && bind.at == ShapeDelegate { return Some(bind.message); }
      traceShape := Some(Delegate(handle, traceShapeIdx));
      if bind.BindThrows? && bind.at == EndShapeDelegate { return Some(bind.message); }
      traceEndShape := Some(Delegate(handle, traceEndShapeIdx));
      if bind.BindThrows? && bind.at == HullShapeDelegate { return Some(bind.message); }
      traceHullShape := Some(Delegate(handle, traceHullShapeIdx));
      thrown := None;
    }

    /** Trace from a start point to an end point. Initialises lazily; an
        unbound binder answers failure with the zeroed result. */
    method TraceEndShape(origin: Vec, endOrigin: Vec, ignoreEntity: Option<int>,
                         options: TraceOptions, attempt: Attempt,
                         native: TraceRequest -> TraceReply)
      returns (ok: bool, result: TraceResult)
      requires Valid()
      modifies this
      ensures Valid()
      ensures State() == InitStep(old(State()), platform, attempt)
      ensures !loaded ==> !ok && result == DefaultResult
      ensures loaded ==> (TraceReply(ok, result) ==
        native(TraceRequest(Delegate(handle, Slots(platform).traceEndShape), handle,
                            origin, endOrigin, ignoreEntity.GetOr(0), options)))
    {
      result := DefaultResult;
      if !loaded { Initialize(attempt); }
      if !loaded || traceEndShape == None { return false, result; }

      var reply := native(TraceRequest(traceEndShape.value, handle, origin, endOrigin,
                                       ignoreEntity.GetOr(0), options));
      ok, result := reply.success, reply.result;
    }

    /** Trace from a start point along view angles (the native side projects
        a fixed distance). Initialises lazily like TraceEndShape. */
    method TraceShape(origin: Vec, angles: Vec, ignoreEntity: Option<int>,
                      options: TraceOptions, attempt: Attempt,
                      native: TraceRequest -> TraceReply)
      returns (ok: bool, result: TraceResult)
      requires Valid()
      modifies this
      ensures Valid()
      ensures State() == InitStep(old(State()), platform, attempt)
      ensures !loaded ==> !ok && result == DefaultResult
      ensures loaded ==> (TraceReply(ok, result) ==
        native(TraceRequest(Delegate(handle, Slots(platform).traceShape), handle,
                            origin, angles, ignoreEntity.GetOr(0), options)))
    {
      result := DefaultResult;
      if !loaded { Initialize(attempt); }
      if !loaded || traceShape == None { return false, result; }

      var reply := native(TraceRequest(traceShape.value, handle, origin, angles,
                                       ignoreEntity.GetOr(0), options));
      ok, result := reply.success, reply.result;
    }

    /** Wall check between two points with the wall-check options, ignoring
        the entity behind skipHandle when one can be built from it: a zero
        handle, or one whose wrapper construction throws (skipResolves is
        false), ignores nothing, and the trace then passes entity 0. */
    method TraceWall(start: Vec, end: Vec, skipHandle: int, skipResolves: bool,
                     attempt: Attempt, native: TraceRequest -> TraceReply)
      returns (ok: bool, result: TraceResult)
      requires Valid()
      modifies this
      ensures Valid()
      ensures State() == InitStep(old(State()), platform, attempt)
      ensures !loaded ==> !ok && result == DefaultResult
      ensures loaded ==> (TraceReply(ok, result) ==
        native(TraceRequest(Delegate(handle, Slots(platform).traceEndShape), handle,
                            start, end,
                            if skipHandle != 0 && skipResolves then skipHandle else 0, WallCheck)))
    {
      result := DefaultResult;
      if !loaded { Initialize(attempt); }
      if !loaded { return false, result; }

      var skipEntity: Option<int> := None;
      if skipHandle != 0 && skipResolves { skipEntity := Some(skipHandle); }
      ok, result := TraceEndShape(start, end, skipEntity, WallCheck, attempt, native);
    }

    /** TraceWall with the beam-drawing options. */
    method TraceWallDebug(start: Vec, end: Vec, skipHandle: int, skipResolves: bool,
                          attempt: Attempt, native: TraceRequest -> TraceReply)
      returns (ok: bool, result: TraceResult)
      requires Valid()
      modifies this
      ensures Valid()
      ensures State() == InitStep(old(State()), platform, attempt)
      ensures !loaded ==> !ok && result == DefaultResult
      ensures loaded ==> (TraceReply(ok, result) ==
        native(TraceRequest(Delegate(handle, Slots(platform).traceEndShape), handle,
                            start, end,
                            if skipHandle != 0 && skipResolves then skipHandle else 0, WallCheckDebug)))
    {
      result := DefaultResult;
      if !loaded { Initialize(attempt); }
      if !loaded { return false, result; }

      var skipEntity: Option<int> := None;
      if skipHandle != 0 && skipResolves { skipEntity := Some(skipHandle); }
      ok, result := TraceEndShape(start, end, skipEntity, WallCheckDebug, attempt, native);
    }
  }
}
