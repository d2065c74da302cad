/** The request/response protocol of the `useApi` hook
    (command_center/frontend/src/api/hooks.ts) under every interleaving of effects,
    reloads, responses, failures and unmounts. */
module UseApi {
  import opened Prelude

  datatype Failure = ApiError(status: int) | OtherError(message: string)

  datatype Response<T> = Fulfilled(value: T) | Rejected(failure: Failure)

  /** The promise chain of one effect: still pending; its then- or catch-callback has
      run (and found its effect live or not); its finally-callback has run too. */
  datatype Phase<T> =
    | Pending
    | Handled(response: Response<T>, wrote: bool)
    | Done(response: Response<T>, wrote: bool)

  // An effect's closure: its `live` variable and its promise chain.
  datatype Request<T> = Request(live: bool, phase: Phase<T>)

  /** What a view sees, plus the bookkeeping of React: which effects have started,
      the reload counter, and the counter value the last effect started with. */
  datatype State<T> = State(
    data: Option<T>, error: Option<Failure>, loading: bool, unauthorized: nat,
    requests: seq<Request<T>>, mounted: bool, nonce: int, seen: int)

  datatype Event<T> =
    | Mount                                  // first mount, or a remount
    | Unmount
    | Reload                                 // the view asks for a reload
    | Rerender                               // React commits; the effect depends on nonce
    | Respond(id: nat, response: Response<T>)  // then- or catch-callback of a request
    | Finally(id: nat)                       // finally-callback of a request

  // Before the first effect a view shows loading and nothing else.
  function Initial<T>(): (s: State<T>)
    ensures s.loading && s.data.None? && s.error.None? && !s.mounted && s.seen == s.nonce
    ensures s.requests == [] && s.unauthorized == 0
  {
    State(None, None, true, 0, [], false, 0, 0)
  }

  // ----- the hook

  // Cleanup of the running effect: its request is live no longer.
  function Cleanup<T>(s: State<T>): State<T> {
    if s.requests == [] then s
    else
      var last := |s.requests| - 1;
      s.(requests := s.requests[last := s.requests[last].(live := false)])
  }

  function RunEffect<T>(s: State<T>): State<T> {
    s.(loading := true, error := None, mounted := true, seen := s.nonce,
       requests := s.requests + [Request(true, Pending)])
  }

  function Handle<T>(s: State<T>, id: nat, response: Response<T>): State<T>
    requires id < |s.requests|
  {
    var live := s.requests[id].live;
    var moved := s.(requests := s.requests[id := Request(live, Handled(response, live))]);
    if !live then moved
    else
      match response
      case Fulfilled(v) => moved.(data := Some(v))
      case Rejected(f) =>
        moved.(error := Some(f),
               unauthorized := s.unauthorized + if f.ApiError? && f.status == 401 then 1 else 0)
  }

  function Step<T>(s: State<T>, e: Event<T>): State<T> {
    match e
    case Mount => if s.mounted then s else RunEffect(s)
    case Unmount => if s.mounted then Cleanup(s).(mounted := false) else s
    case Reload => if s.mounted then s.(nonce := s.nonce + 1) else s
    case Rerender => if s.mounted && s.nonce != s.seen then RunEffect(Cleanup(s)) else s
    case Respond(id, response) =>
      if id < |s.requests| && s.requests[id].phase.Pending? then Handle(s, id, response) else s
    case Finally(id) =>
      if id < |s.requests| && s.requests[id].phase.Handled? then
        var r := s.requests[id];
        s.(requests := s.requests[id := r.(phase := Done(r.phase.response, r.phase.wrote))],
           loading := if r.live then false else s.loading)
      else s
  }

  function Run<T>(s: State<T>, events: seq<Event<T>>): State<T>
    decreases |events|
  {
    if events == [] then s else Run(Step(s, events[0]), events[1..])
  }

  // ----- what each event does

  /** A callback of a pending request: a dead one only moves on; a live one shows its
      value, or its error, and signals the 401 of the API and nothing else. A request
      answers once. */
  lemma RespondExact<T>(s: State<T>, id: nat, response: Response<T>)
    ensures var after := Step(s, Respond(id, response));
            if id >= |s.requests| || !s.requests[id].phase.Pending? then after == s
            else
              var live := s.requests[id].live;
              var moved := s.requests[id := Request(live, Handled(response, live))];
              if !live then after == s.(requests := moved)
              else
                match response
                case Fulfilled(v) => after == s.(requests := moved, data := Some(v))
                case Rejected(ApiError(status)) =>
                  after == s.(requests := moved, error := Some(ApiError(status)),
                              unauthorized := if status == 401 then s.unauthorized + 1 else s.unauthorized)
                case Rejected(OtherError(m)) => after == s.(requests := moved, error := Some(OtherError(m)))
  {
  }

  /** The last callback of a request ends the loading exactly if it is live. */
  lemma FinallyExact<T>(s: State<T>, id: nat)
    ensures var after := Step(s, Finally(id));
            if id >= |s.requests| || !s.requests[id].phase.Handled? then after == s
            else
              var r := s.requests[id];
              after == s.(requests := s.requests[id := Request(r.live, Done(r.phase.response, r.phase.wrote))],
                          loading := s.loading && !r.live)
  {
  }

  /** Mounting starts a request; asking for a reload starts one at the next render, after
      the running one has been called dead; without a new ask a render starts none. The
      data shown stays until the new request answers, an old error goes at once. */
  lemma EffectsExact<T>(s: State<T>)
    ensures !s.mounted ==>
              Step(s, Mount) == s.(loading := true, error := None, mounted := true, seen := s.nonce,
                                   requests := s.requests + [Request(true, Pending)])
    ensures s.mounted && s.seen == s.nonce ==> Step(s, Rerender) == s
    ensures s.mounted && s.seen == s.nonce && s.requests != [] ==>
              var last := |s.requests| - 1;
              Step(Step(s, Reload), Rerender) ==
              s.(loading := true, error := None, nonce := s.nonce + 1, seen := s.nonce + 1,
                 requests := s.requests[last := s.requests[last].(live := false)] + [Request(true, Pending)])
    ensures s.mounted && s.requests != [] ==>
              var last := |s.requests| - 1;
              Step(s, Unmount) == s.(mounted := false, requests := s.requests[last := s.requests[last].(live := false)])
    ensures !s.mounted ==> Step(s, Reload) == Step(s, Rerender) == Step(s, Unmount) == s
  {
  }

  // ----- stale responses never show

  ghost predicate Newest<T>(s: State<T>, id: nat) {
    s.mounted && id + 1 == |s.requests|
  }

  // Exactly the request of the newest started effect is live, while mounted.
  ghost predicate OneLive<T>(s: State<T>) {
    && (s.mounted ==> s.requests != [])
    && forall i | 0 <= i < |s.requests| :: s.requests[i].live <==> Newest(s, i)
  }

  // The request whose success is on display.
  ghost predicate Wrote<T>(s: State<T>, i: int) {
    && 0 <= i < |s.requests| && !s.requests[i].phase.Pending?
    && s.requests[i].phase.wrote && s.requests[i].phase.response.Fulfilled?
  }

  ghost predicate Shows<T>(s: State<T>) {
    if s.data.None? then forall i :: !Wrote(s, i)
    else exists i :: IsSource(s, i)
  }

  ghost predicate IsSource<T>(s: State<T>, i: int) {
    && Wrote(s, i) && s.data == Some(s.requests[i].phase.response.value)
    && forall j | i < j :: !Wrote(s, j)
  }

  // While mounted, error and loading belong to the newest request.
  ghost predicate Follows<T>(s: State<T>) {
    s.mounted && s.requests != [] ==>
      match s.requests[|s.requests| - 1].phase
      case Pending => s.loading && s.error == None
      case Handled(Fulfilled(v), wrote) => wrote && s.loading && s.error == None
      case Handled(Rejected(f), wrote) => wrote && s.loading && s.error == Some(f)
      case Done(Fulfilled(v), wrote) => wrote && !s.loading && s.error == None
      case Done(Rejected(f), wrote) => wrote && !s.loading && s.error == Some(f)
  }

  ghost predicate Inv<T>(s: State<T>) {
    OneLive(s) && Shows(s) && Follows(s)
  }

  lemma StepKeepsOneLive<T>(s: State<T>, e: Event<T>)
    requires OneLive(s)
    ensures OneLive(Step(s, e))
  {
  }

  lemma StepKeepsFollows<T>(s: State<T>, e: Event<T>)
    requires OneLive(s) && Follows(s)
    ensures Follows(Step(s, e))
  {
  }

  lemma StepKeepsShows<T>(s: State<T>, e: Event<T>)
    requires OneLive(s) && Shows(s)
    ensures Shows(Step(s, e))
  {
    var s' := Step(s, e);
    if e.Respond? && e.id < |s.requests| && s.requests[e.id].phase.Pending? && s.requests[e.id].live
       && e.response.Fulfilled? {
      assert IsSource(s', e.id);
    } else {
      assert forall i :: Wrote(s', i) <==> Wrote(s, i);
      assert forall i :: IsSource(s, i) ==> IsSource(s', i);
    }
  }

  lemma {:induction false} RunKeepsInv<T>(s: State<T>, events: seq<Event<T>>)
    requires Inv(s)
    ensures Inv(Run(s, events))
    decreases |events|
  {
    if events != [] {
      StepKeepsOneLive(s, events[0]);
      StepKeepsFollows(s, events[0]);
      StepKeepsShows(s, events[0]);
      hide Step, OneLive, Shows, Follows;
      RunKeepsInv(Step(s, events[0]), events[1..]);
    }
  }

  ghost predicate SameView<T>(a: State<T>, b: State<T>) {
    a.data == b.data && a.error == b.error && a.loading == b.loading && a.unauthorized == b.unauthorized
  }

  /** Whatever happened before, a callback of a request that is not the newest, or
      whose component is gone, changes nothing a view can see. */
  lemma StaleIsInert<T>(events: seq<Event<T>>, e: Event<T>)
    requires e.Respond? || e.Finally?
    requires !Newest(Run(Initial<T>(), events), e.id)
    ensures SameView(Step(Run(Initial<T>(), events), e), Run(Initial<T>(), events))
  {
    InitialInv<T>();
    RunKeepsInv(Initial<T>(), events);
  }

  lemma InitialInv<T>()
    ensures Inv(Initial<T>())
  {
  }

  /** In every reachable mounted state: once the newest request has settled, loading
      is over and the view shows either its result and no error, or its error; until
      then it is loading. And the data on display is always the result of the latest
      request that succeeded while it was the newest. */
  lemma ViewFollowsNewest<T>(events: seq<Event<T>>)
    ensures var s := Run(Initial<T>(), events);
            && (s.mounted ==>
                  && s.requests != []
                  && var newest := s.requests[|s.requests| - 1].phase;
                     && (s.loading <==> !newest.Done?)
                     && (newest.Done? ==>
                           match newest.response
                           case Fulfilled(v) => s.data == Some(v) && s.error == None
                           case Rejected(f) => s.error == Some(f)))
            && Shows(s)
  {
    InitialInv<T>();
    RunKeepsInv(Initial<T>(), events);
    var s := Run(Initial<T>(), events);
    if s.mounted {
      var last := |s.requests| - 1;
      if s.requests[last].phase.Done? && s.requests[last].phase.response.Fulfilled? {
        assert Wrote(s, last);
        assert s.data.Some?;
        var i :| IsSource(s, i);
        assert i == last;
      }
    }
  }

  // ----- non-interference: stale traffic might as well not have happened

  // Drop every callback that is stale when it runs.
  function Pruned<T>(s: State<T>, events: seq<Event<T>>): seq<Event<T>>
    decreases |events|
  {
    if events == [] then []
    else
      var e := events[0];
      var rest := Pruned(Step(s, e), events[1..]);
      if (e.Respond? || e.Finally?) && !(e.id < |s.requests| && s.requests[e.id].live)
      then rest else [e] + rest
  }

  // Alike but for how far the dead requests have got.
  ghost predicate Alike<T>(a: State<T>, b: State<T>) {
    && SameView(a, b) && a.mounted == b.mounted && a.nonce == b.nonce && a.seen == b.seen
    && |a.requests| == |b.requests|
    && forall i | 0 <= i < |a.requests| ::
         a.requests[i].live == b.requests[i].live && (a.requests[i].live ==> a.requests[i] == b.requests[i])
  }

  lemma StepKeepsAlike<T>(a: State<T>, b: State<T>, e: Event<T>)
    requires Alike(a, b)
    ensures Alike(Step(a, e), Step(b, e))
  {
    CleanupAlike(a, b);
    match e
    case Respond(id, response) =>
      hide Cleanup, RunEffect;
      HandleAlike(a, b, id, response);
    case Finally(id) => hide Handle, Cleanup, RunEffect;
    case _ => hide Handle, Cleanup;
  }

  lemma CleanupAlike<T>(a: State<T>, b: State<T>)
    requires Alike(a, b)
    ensures Alike(Cleanup(a), Cleanup(b))
  {
  }

  lemma HandleAlike<T>(a: State<T>, b: State<T>, id: nat, response: Response<T>)
    requires Alike(a, b)
    ensures Alike(Step(a, Respond(id, response)), Step(b, Respond(id, response)))
  {
    hide Cleanup, RunEffect;
  }

  lemma StaleStepAlike<T>(a: State<T>, b: State<T>, e: Event<T>)
    requires Alike(a, b) && (e.Respond? || e.Finally?)
    requires !(e.id < |a.requests| && a.requests[e.id].live)
    ensures Alike(Step(a, e), b)
  {
  }

  /** A view cannot tell a run from the same run without its stale callbacks. */
  lemma {:induction false} StaleTrafficIsInvisible<T>(a: State<T>, b: State<T>, events: seq<Event<T>>)
    requires Alike(a, b)
    ensures Alike(Run(a, events), Run(b, Pruned(a, events)))
    decreases |events|
  {
    if events != [] {
      var e := events[0];
      var rest := Pruned(Step(a, e), events[1..]);
      if (e.Respond? || e.Finally?) && !(e.id < |a.requests| && a.requests[e.id].live) {
        StaleStepAlike(a, b, e);
        hide Step, Alike;
        StaleTrafficIsInvisible(Step(a, e), b, events[1..]);
      } else {
        StepKeepsAlike(a, b, e);
        assert ([e] + rest)[1..] == rest;
        hide Step, Alike;
        StaleTrafficIsInvisible(Step(a, e), Step(b, e), events[1..]);
      }
    }
  }

  // ----- the hook as code: state setters and closures with a mutable flag

  class Hook<T(!new)> {
    var data: Option<T>
    var error: Option<Failure>
    var loading: bool
    var unauthorized: nat
    var live: seq<bool>        // the `live` variable of each effect's closure
    var phase: seq<Phase<T>>   // how far each effect's promise chain has got
    var mounted: bool
    var nonce: int
    var seen: int

    predicate Valid() reads this { |live| == |phase| }

    function View(): State<T>
      reads this
      requires Valid()
    {
      State(data, error, loading, unauthorized,
            seq(|live|, i requires 0 <= i < |live| && |live| == |phase| reads this => Request(live[i], phase[i])),
            mounted, nonce, seen)
    }

    constructor ()
      ensures Valid() && View() == Initial<T>()
    {
      data, error, loading, unauthorized := None, None, true, 0;
      live, phase, mounted, nonce, seen := [], [], false, 0, 0;
    }

    // The function returned by the effect.
    method Clean()
      requires Valid()
      modifies this`live
      ensures Valid() && View() == Cleanup(old(View()))
    {
      if live != [] { live := live[|live| - 1 := false]; }
    }

    method Effect()
      requires Valid()
      modifies this
      ensures Valid() && View() == RunEffect(old(View()))
    {
      live, phase := live + [true], phase + [Pending];
      loading := true;
      error := None;
      mounted, seen := true, nonce;
    }

    method Callback(id: nat, response: Response<T>)
      requires Valid() && id < |live|
      modifies this
      ensures Valid() && View() == Handle(old(View()), id, response)
    {
      phase := phase[id := Handled(response, live[id])];
      if !live[id] { return; }
      match response
      case Fulfilled(v) => data := Some(v);
      case Rejected(f) =>
        if f.ApiError? && f.status == 401 { unauthorized := unauthorized + 1; }
        error := Some(f);
    }

    method Execute(e: Event<T>)
      requires Valid()
      modifies this
      ensures Valid() && View() == Step(old(View()), e)
    {
      match e
      case Mount => if !mounted { Effect(); }
      case Unmount => if mounted { Clean(); mounted := false; }
      case Reload => if mounted { nonce := nonce + 1; }
      case Rerender => if mounted && nonce != seen { Clean(); Effect(); }
      case Respond(id, response) => if id < |live| && phase[id].Pending? { Callback(id, response); }
      case Finally(id) =>
        if id < |live| && phase[id].Handled? {
          phase := phase[id := Done(phase[id].response, phase[id].wrote)];
          if live[id] { loading := false; }
        }
    }
  }
}
