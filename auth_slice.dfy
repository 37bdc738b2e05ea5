/**
 * The session slice: the six-field session record, the reducer cases for
 * `reset`, `clearUserData` and the pending/fulfilled/rejected actions of the
 * Login, Me and Logout thunks, the values those thunks settle with, and a
 * store object whose methods update the fields in place as the slice's
 * case reducers do.
 */
module AuthSlice {
  import opened Js

  datatype Session = Session(
    user: JsValue,
    isError: bool,
    isSuccess: bool,
    isLoading: bool,
    message: JsValue,
    isAuthenticated: bool)

  const Initial: Session := Session(Null, false, false, false, Str(""), false)

  datatype Action =
    | Reset
    | ClearUserData
    | LoginPending
    | LoginFulfilled(payload: JsValue)
    | LoginRejected(payload: JsValue)
    | MePending
    | MeFulfilled(payload: JsValue)
    | MeRejected(payload: JsValue)
    | LogoutPending
    | LogoutFulfilled
    | LogoutRejected
    | Unrelated  // an action of another slice, which this reducer ignores

  /**
   * The session invariant: never authenticated and in error, never successful
   * and in error, success only while authenticated, and no user unless
   * authenticated.
   */
  predicate Consistent(s: Session)
  {
    && !(s.isAuthenticated && s.isError)
    && !(s.isSuccess && s.isError)
    && (s.isSuccess ==> s.isAuthenticated)
    && (!s.isAuthenticated ==> s.user == Null)
  }

  /** One step of the slice's reducer. */
  function Reduce(s: Session, a: Action): (t: Session)
    ensures Consistent(s) ==> Consistent(t)
  {
    match a
    case Reset => Initial
    case ClearUserData => s.(user := Null, isAuthenticated := false, isSuccess := false)
    case LoginPending => s.(isLoading := true, isError := false, isSuccess := false, message := Str(""))
    case LoginFulfilled(p) =>
      s.(isLoading := false, isSuccess := true, isError := false, user := p,
         isAuthenticated := true, message := Str(""))
    case LoginRejected(p) =>
      s.(isLoading := false, isError := true, isSuccess := false, message := p,
         isAuthenticated := false, user := Null)
    case MePending => s.(isLoading := true, isError := false)
    case MeFulfilled(p) =>
      s.(isLoading := false, isSuccess := true, isError := false, user := p,
         isAuthenticated := true, message := Str(""))
    case MeRejected(p) =>
      s.(isLoading := false, isError := true, isSuccess := false, message := p,
         isAuthenticated := false, user := Null)
    case LogoutPending => s.(isLoading := true)
    case LogoutFulfilled => Initial
    case LogoutRejected => Initial
    case Unrelated => s
  }

  /** The state after dispatching `actions` one at a time, in order. */
  function Run(s: Session, actions: seq<Action>): Session
    decreases |actions|
  {
    if actions == [] then s else Run(Reduce(s, actions[0]), actions[1..])
  }

  lemma RunTwo(s: Session, a: Action, b: Action)
    ensures Run(s, [a, b]) == Reduce(Reduce(s, a), b)
  {
    assert [a, b][1..] == [b];
    assert [b][1..] == [];
    assert Run(s, [a, b]) == Run(Reduce(s, a), [b]);
    assert Run(Reduce(s, a), [b]) == Run(Reduce(Reduce(s, a), b), []);
  }

  lemma {:induction false} RunPreservesConsistency(s: Session, actions: seq<Action>)
    requires Consistent(s)
    ensures Consistent(Run(s, actions))
    decreases |actions|
  {
    if actions != [] {
      RunPreservesConsistency(Reduce(s, actions[0]), actions[1..]);
    }
  }

  /**
   * From the initial state, whatever sequence of actions is dispatched, the
   * session is never authenticated and in error, nor successful and in error.
   */
  lemma Reachable(actions: seq<Action>)
    ensures var s := Run(Initial, actions);
      && !(s.isAuthenticated && s.isError)
      && !(s.isSuccess && s.isError)
      && (!s.isAuthenticated ==> s.user == Null)
  {
    RunPreservesConsistency(Initial, actions);
  }

  /** `reset` and both outcomes of Logout restore exactly the initial state. */
  lemma ResetsRestoreInitial(s: Session)
    ensures Reduce(s, Reset) == Initial
    ensures Reduce(s, LogoutFulfilled) == Initial
    ensures Reduce(s, LogoutRejected) == Initial
  {
  }

  /** `clearUserData` drops the user and leaves the error, loading and message fields alone. */
  lemma ClearUserDataFrame(s: Session)
    ensures var t := Reduce(s, ClearUserData);
      && t.user == Null && !t.isAuthenticated && !t.isSuccess
      && t.isError == s.isError && t.isLoading == s.isLoading && t.message == s.message
  {
  }

  /** Login.pending starts loading and clears the outcome, keeping the user. */
  lemma LoginPendingFrame(s: Session)
    ensures var t := Reduce(s, LoginPending);
      && t.isLoading && !t.isError && !t.isSuccess && t.message == Str("")
      && t.user == s.user && t.isAuthenticated == s.isAuthenticated
  {
  }

  /** Me.pending sets only isLoading and isError. */
  lemma MePendingFrame(s: Session)
    ensures var t := Reduce(s, MePending);
      && t.isLoading && !t.isError
      && t.user == s.user && t.isSuccess == s.isSuccess
      && t.message == s.message && t.isAuthenticated == s.isAuthenticated
  {
  }

  /** Logout.pending sets only isLoading. */
  lemma LogoutPendingFrame(s: Session)
    ensures Reduce(s, LogoutPending) == s.(isLoading := true)
  {
  }

  /** Login.fulfilled and Me.fulfilled both install the payload as an authenticated user. */
  lemma FulfilledShape(s: Session, p: JsValue)
    ensures Reduce(s, LoginFulfilled(p)) == Reduce(s, MeFulfilled(p))
      == Session(p, false, true, false, Str(""), true)
  {
  }

  /** Login.rejected and Me.rejected both drop the user and keep the payload as the message. */
  lemma RejectedShape(s: Session, p: JsValue)
    ensures Reduce(s, LoginRejected(p)) == Reduce(s, MeRejected(p))
      == Session(Null, true, false, false, p, false)
  {
  }

  /** Actions of other slices leave the session untouched. */
  lemma UnrelatedIgnored(s: Session)
    ensures Reduce(s, Unrelated) == s
  {
  }

  /** Dispatching the same action twice in a row is the same as dispatching it once. */
  lemma ReduceIdempotent(s: Session, a: Action)
    ensures Reduce(Reduce(s, a), a) == Reduce(s, a)
  {
  }

  predicate Fulfils(a: Action)
  {
    a.LoginFulfilled? || a.MeFulfilled?
  }

  /**
   * Only a fulfilled Login or Me authenticates: from an anonymous session, a
   * sequence without either stays anonymous and without a user.
   */
  lemma {:induction false} AuthenticatedOnlyByFulfilment(s: Session, actions: seq<Action>)
    requires !s.isAuthenticated && s.user == Null
    requires forall i :: 0 <= i < |actions| ==> !Fulfils(actions[i])
    ensures !Run(s, actions).isAuthenticated && Run(s, actions).user == Null
    decreases |actions|
  {
    if actions != [] {
      assert !Fulfils(actions[0]);
      AuthenticatedOnlyByFulfilment(Reduce(s, actions[0]), actions[1..]);
    }
  }

  // ---------------------------------------------------------------------
  // The thunks: what each request settles with, given the reply.

  /**
   * How a thunk settles: with a value, through `rejectWithValue`, or because
   * its own code threw (the rejected action then has an undefined payload
   * and `unwrap` rethrows the serialized error).
   */
  datatype Settled =
    | Fulfilled(value: JsValue)
    | RejectedWithValue(value: JsValue)
    | Threw(error: JsValue)

  const LoginFailedText := "Terjadi kesalahan saat login"
  const NoServerText := "Gagal terhubung ke server"
  const MeFailedText := "Failed to fetch user data"
  const LogoutFailedText := "Failed to logout"

  /**
   * The message of a rejected login whose response body is `data`:
   * `data.msg || data.message || data`, kept when it is a string and
   * replaced by the generic text otherwise.
   */
  function LoginRejectionMessage(data: JsValue): (m: JsValue)
    requires data != Null && data != Undefined
    ensures m.Str?
    ensures OptProp(data, "msg").Str? && Truthy(OptProp(data, "msg")) ==> m == OptProp(data, "msg")
    ensures Truthy(OptProp(data, "msg")) && !OptProp(data, "msg").Str? ==> m == Str(LoginFailedText)
    ensures !Truthy(OptProp(data, "msg")) && Truthy(OptProp(data, "message")) ==>
      m == if OptProp(data, "message").Str? then OptProp(data, "message") else Str(LoginFailedText)
    ensures data.Str? ==> m == data
    ensures !data.Str? && !Truthy(OptProp(data, "msg")) && !Truthy(OptProp(data, "message")) ==>
      m == Str(LoginFailedText)
  {
    var first := Or(Or(OptProp(data, "msg"), OptProp(data, "message")), data);
    if first.Str? then first else Str(LoginFailedText)
  }

  /**
   * The Login thunk. `thrown` is the serialized TypeError the runtime
   * produces when the error body is null or undefined and the catch block
   * reads `.msg` of it.
   */
  function LoginThunk(reply: Reply, thrown: JsValue): (r: Settled)
    ensures r.Fulfilled? <==> reply.Ok?
    ensures reply.Ok? ==> r.value == reply.body
    ensures reply.Failed? && reply.error.response.None? ==> r == RejectedWithValue(Str(NoServerText))
    ensures r.Threw? <==>
      reply.Failed? && (reply.error.response == Some(Null) || reply.error.response == Some(Undefined))
    ensures r.RejectedWithValue? ==> r.value.Str?
  {
    match reply
    case Ok(_, body) => Fulfilled(body)
    case Failed(err) =>
      match err.response
      case None => RejectedWithValue(Str(NoServerText))
      case Some(data) =>
        if data == Null || data == Undefined then Threw(thrown)
        else RejectedWithValue(LoginRejectionMessage(data))
  }

  /**
   * The Me thunk: the body on success, the body's `msg` on an HTTP error, a
   * fixed text without a response. `thrown` is the TypeError of reading `.msg`
   * of a null or undefined error body.
   */
  function MeThunk(reply: Reply, thrown: JsValue): (r: Settled)
    ensures r.Fulfilled? <==> reply.Ok?
    ensures reply.Ok? ==> r.value == reply.body
    ensures r.Threw? <==>
      reply.Failed? && (reply.error.response == Some(Null) || reply.error.response == Some(Undefined))
    ensures r.Threw? ==> r.error == thrown
    ensures reply.Failed? && reply.error.response.None? ==> r == RejectedWithValue(Str(MeFailedText))
    ensures reply.Failed? && reply.error.response.Some? && Prop(reply.error.response.value, "msg").Some? ==>
      r == RejectedWithValue(OptProp(reply.error.response.value, "msg"))
  {
    match reply
    case Ok(_, body) => Fulfilled(body)
    case Failed(err) =>
      match err.response
      case None => RejectedWithValue(Str(MeFailedText))
      case Some(data) =>
        if data == Null || data == Undefined then Threw(thrown)
        else RejectedWithValue(OptProp(data, "msg"))
  }

  /** The Logout thunk: fulfilled with null, or rejected with a fixed text on any error. */
  function LogoutThunk(reply: Reply): (r: Settled)
    ensures reply.Ok? ==> r == Fulfilled(Null)
    ensures reply.Failed? ==> r == RejectedWithValue(Str(LogoutFailedText))
  {
    if reply.Ok? then Fulfilled(Null) else RejectedWithValue(Str(LogoutFailedText))
  }

  /** The payload of the rejected action: undefined when the thunk threw. */
  function RejectedPayload(st: Settled): JsValue
  {
    match st
    case Fulfilled(v) => v
    case RejectedWithValue(v) => v
    case Threw(_) => Undefined
  }

  function LoginSettledAction(st: Settled): Action
  {
    if st.Fulfilled? then LoginFulfilled(st.value) else LoginRejected(RejectedPayload(st))
  }

  function MeSettledAction(st: Settled): Action
  {
    if st.Fulfilled? then MeFulfilled(st.value) else MeRejected(RejectedPayload(st))
  }

  function LogoutSettledAction(st: Settled): Action
  {
    if st.Fulfilled? then LogoutFulfilled else LogoutRejected
  }

  /** The actions one dispatch of a thunk produces: pending, then its settlement. */
  function DispatchLogin(reply: Reply, thrown: JsValue): seq<Action>
  {
    [LoginPending, LoginSettledAction(LoginThunk(reply, thrown))]
  }

  /**
   * After a login request the session is authenticated exactly when the
   * server accepted it, and is no longer loading; the user is the response
   * body, and a refused login leaves a string message unless the catch
   * block itself threw.
   */
  lemma LoginOutcome(s: Session, reply: Reply, thrown: JsValue)
    ensures var t := Run(s, DispatchLogin(reply, thrown));
      && (t.isAuthenticated <==> reply.Ok?)
      && !t.isLoading
      && (reply.Ok? ==> t.user == reply.body && t.isSuccess && t.message == Str(""))
      && (reply.Failed? ==> t.isError && t.user == Null && (t.message.Str? || t.message == Undefined))
  {
    RunTwo(s, LoginPending, LoginSettledAction(LoginThunk(reply, thrown)));
  }

  /**
   * After a session check the session is authenticated exactly when the
   * request succeeded, with the body as user; a failed check leaves the
   * body's `msg`, the fixed text without a response, or undefined when the
   * catch block itself threw.
   */
  lemma MeOutcome(s: Session, reply: Reply, thrown: JsValue)
    ensures var t := Run(s, [MePending, MeSettledAction(MeThunk(reply, thrown))]);
      && (t.isAuthenticated <==> reply.Ok?)
      && !t.isLoading
      && (reply.Ok? ==> t.user == reply.body && t.isSuccess && !t.isError)
      && (reply.Failed? ==> t.isError && t.user == Null && !t.isSuccess)
      && (reply.Failed? && reply.error.response.None? ==> t.message == Str(MeFailedText))
      && (reply.Failed? && reply.error.response.Some? ==>
            t.message == OptProp(reply.error.response.value, "msg"))
  {
    RunTwo(s, MePending, MeSettledAction(MeThunk(reply, thrown)));
  }

  /** Logging out always ends anonymous, whether or not the server answered. */
  lemma LogoutOutcome(s: Session, reply: Reply)
    ensures Run(s, [LogoutPending, LogoutSettledAction(LogoutThunk(reply))]) == Initial
  {
    RunTwo(s, LogoutPending, LogoutSettledAction(LogoutThunk(reply)));
  }

  /**
   * The slice's state object. Each method is one case reducer and assigns
   * the fields of the draft state in place.
   */
  class AuthStore {
    var user: JsValue
    var isError: bool
    var isSuccess: bool
    var isLoading: bool
    var message: JsValue
    var isAuthenticated: bool

    function State(): Session
      reads this
    {
      Session(user, isError, isSuccess, isLoading, message, isAuthenticated)
    }

    predicate Valid()
      reads this
    {
      Consistent(State())
    }

    constructor ()
      ensures State() == Initial && Valid()
    {
      user, isError, isSuccess, isLoading, message, isAuthenticated :=
        Null, false, false, false, Str(""), false;
    }

    /** `Object.assign(state, initialState)`. */
    method AssignInitial()
      modifies this
      ensures State() == Initial
    {
      user := Null;
      isError := false;
      isSuccess := false;
      isLoading := false;
      message := Str("");
      isAuthenticated := false;
    }

    method Reset()
      modifies this
      ensures State() == Initial && State() == Reduce(old(State()), Action.Reset)
    {
      AssignInitial();
    }

    method ClearUserData()
      modifies this
      ensures user == Null && !isAuthenticated && !isSuccess
      ensures isError == old(isError) && isLoading == old(isLoading) && message == old(message)
      ensures State() == Reduce(old(State()), Action.ClearUserData)
    {
      user := Null;
      isAuthenticated := false;
      isSuccess := false;
    }

    method LoginPending()
      modifies this
      ensures isLoading && !isError && !isSuccess && message == Str("")
      ensures user == old(user) && isAuthenticated == old(isAuthenticated)
      ensures State() == Reduce(old(State()), Action.LoginPending)
    {
      isLoading := true;
      isError := false;
      isSuccess := false;
      message := Str("");
    }

    method LoginFulfilled(payload: JsValue)
      modifies this
      ensures State() == Session(payload, false, true, false, Str(""), true)
      ensures State() == Reduce(old(State()), Action.LoginFulfilled(payload))
    {
      isLoading := false;
      isSuccess := true;
      isError := false;
      user := payload;
      isAuthenticated := true;
      message := Str("");
    }

    method LoginRejected(payload: JsValue)
      modifies this
      ensures State() == Session(Null, true, false, false, payload, false)
      ensures State() == Reduce(old(State()), Action.LoginRejected(payload))
    {
      isLoading := false;
      isError := true;
      isSuccess := false;
      message := payload;
      isAuthenticated := false;
      user := Null;
    }

    method MePending()
      modifies this
      ensures isLoading && !isError
      ensures user == old(user) && isSuccess == old(isSuccess)
      ensures message == old(message) && isAuthenticated == old(isAuthenticated)
      ensures State() == Reduce(old(State()), Action.MePending)
    {
      isLoading := true;
      isError := false;
    }

    method MeFulfilled(payload: JsValue)
      modifies this
      ensures State() == Session(payload, false, true, false, Str(""), true)
      ensures State() == Reduce(old(State()), Action.MeFulfilled(payload))
    {
      isLoading := false;
      isSuccess := true;
      isError := false;
      user := payload;
      isAuthenticated := true;
      message := Str("");
    }

    method MeRejected(payload: JsValue)
      modifies this
      ensures State() == Session(Null, true, false, false, payload, false)
      ensures State() == Reduce(old(State()), Action.MeRejected(payload))
    {
      isLoading := false;
      isError := true;
      isSuccess := false;
      message := payload;
      isAuthenticated := false;
      user := Null;
    }

    method LogoutPending()
      modifies this
      ensures State() == old(State()).(isLoading := true)
      ensures State() == Reduce(old(State()), Action.LogoutPending)
    {
      isLoading := true;
    }

    method LogoutFulfilled()
      modifies this
      ensures State() == Initial && State() == Reduce(old(State()), Action.LogoutFulfilled)
    {
      AssignInitial();
    }

    method LogoutRejected()
      modifies this
      ensures State() == Initial && State() == Reduce(old(State()), Action.LogoutRejected)
    {
      isLoading := false;
      AssignInitial();
    }

    /** The store's dispatch: routes an action to its case reducer. */
    method Dispatch(a: Action)
      modifies this
      ensures State() == Reduce(old(State()), a)
      ensures old(Valid()) ==> Valid()
    {
      match a
      case Reset => Reset();
      case ClearUserData => ClearUserData();
      case LoginPending => LoginPending();
      case LoginFulfilled(p) => LoginFulfilled(p);
      case LoginRejected(p) => LoginRejected(p);
      case MePending => MePending();
      case MeFulfilled(p) => MeFulfilled(p);
      case MeRejected(p) => MeRejected(p);
      case LogoutPending => LogoutPending();
      case LogoutFulfilled => LogoutFulfilled();
      case LogoutRejected => LogoutRejected();
      case Unrelated =>
    }
  }
}
