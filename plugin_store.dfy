/**
  The plugin store: the timer-subscription table in front of the timer
  worker, the queue of images waiting for the connection, the registry of
  action instances with their outbound commands, and the routing of inbound
  messages to the built-in handlers. Each handler runs to completion, so
  each method here is one atomic step.

  The timer worker, the WebSocket and JSON are outside: messages posted to
  the worker are appended to `workerLog`, frames handed to `send` are
  appended to `sent`, and whether a `send` call throws is an input.
 */
module PluginStore {
  import opened Protocol
  import opened JsString

  // ---------------------------------------------------------------------
  // Sequence helpers with the meaning of the Array methods the store uses
  // ---------------------------------------------------------------------

  /** `Array.prototype.findIndex`: the first position whose element
      satisfies `p`, or -1. */
  function FindIndex<T>(s: seq<T>, p: T -> bool): (i: int)
    ensures -1 <= i < |s|
    ensures i >= 0 ==> p(s[i]) && forall j :: 0 <= j < i ==> !p(s[j])
    ensures i == -1 <==> forall j :: 0 <= j < |s| ==> !p(s[j])
  {
    if s == [] then -1
    else if p(s[0]) then 0
    else
      var k := FindIndex(s[1..], p);
      if k == -1 then -1 else k + 1
  }

  /** `splice(i, 1)`. */
  function RemoveAt<T>(s: seq<T>, i: nat): (r: seq<T>)
    requires i < |s|
    ensures |r| == |s| - 1
    ensures forall j :: 0 <= j < i ==> r[j] == s[j]
    ensures forall j :: i <= j < |r| ==> r[j] == s[j + 1]
  {
    s[..i] + s[i + 1..]
  }

  // ---------------------------------------------------------------------
  // Timer subscriptions (`TimerSubscribe`, `Interval`, `Unterval`)
  // ---------------------------------------------------------------------

  /** What a subscription's callback does when its timer fires. */
  datatype Task = FlushPendingImages | ReloadText(context: string) | ReloadImage(context: string)

  datatype Subscription = Subscription(uuid: string, task: Task)

  /** A message posted to the timer worker. */
  datatype WorkerRequest =
    | SetIntervalRequest(uuid: string, delay: int)
    | ClearIntervalRequest(uuid: string)

  function TimerIndex(subs: seq<Subscription>, uuid: string): int {
    FindIndex(subs, (s: Subscription) => s.uuid == uuid)
  }

  predicate Subscribed(subs: seq<Subscription>, uuid: string) {
    exists i :: 0 <= i < |subs| && subs[i].uuid == uuid
  }

  predicate UniqueIds(subs: seq<Subscription>) {
    forall i, j :: 0 <= i < j < |subs| ==> subs[i].uuid != subs[j].uuid
  }

  /** The table after `Interval(uuid, delay, fn)`: a new entry only when no
      entry has that id. */
  function AddTimer(subs: seq<Subscription>, uuid: string, task: Task): seq<Subscription> {
    if TimerIndex(subs, uuid) == -1 then subs + [Subscription(uuid, task)] else subs
  }

  /** The table after `Unterval(uuid)`: the entry with that id is spliced
      out, if there is one. */
  function RemoveTimer(subs: seq<Subscription>, uuid: string): seq<Subscription> {
    var i := TimerIndex(subs, uuid);
    if i == -1 then subs else RemoveAt(subs, i)
  }

  /** The callback a worker message `{event, uuid}` runs, if any. */
  function FiredTask(subs: seq<Subscription>, event: string, uuid: string): Option<Task> {
    var i := TimerIndex(subs, uuid);
    if i != -1 && event == "setInterval" then Some(subs[i].task) else None
  }

  /** `Interval` keeps ids unique, leaves an existing entry and its callback
      alone, and otherwise appends exactly one entry. */
  lemma {:induction false} AddTimerSpec(subs: seq<Subscription>, uuid: string, task: Task)
    requires UniqueIds(subs)
    ensures var r := AddTimer(subs, uuid, task);
      && UniqueIds(r)
      && Subscribed(r, uuid)
      && (Subscribed(subs, uuid) ==> r == subs)
      && (!Subscribed(subs, uuid) ==> r == subs + [Subscription(uuid, task)])
  {
    var i := TimerIndex(subs, uuid);
    if i == -1 {
      var r := subs + [Subscription(uuid, task)];
      assert r[|subs|].uuid == uuid;
      assert !Subscribed(subs, uuid) by {
        forall j | 0 <= j < |subs| ensures subs[j].uuid != uuid {
          assert !(((s: Subscription) => s.uuid == uuid)(subs[j]));
        }
      }
    } else {
      assert subs[i].uuid == uuid;
    }
  }

  /** `Unterval` removes the subscription with that id, keeps every other id
      subscribed, and keeps ids unique; without such an entry it changes
      nothing. */
  lemma {:induction false} RemoveTimerSpec(subs: seq<Subscription>, uuid: string)
    requires UniqueIds(subs)
    ensures var r := RemoveTimer(subs, uuid);
      && UniqueIds(r)
      && !Subscribed(r, uuid)
      && (forall u :: u != uuid ==> (Subscribed(r, u) <==> Subscribed(subs, u)))
      && (!Subscribed(subs, uuid) ==> r == subs)
  {
    var i := TimerIndex(subs, uuid);
    var r := RemoveTimer(subs, uuid);
    if i == -1 {
      forall j | 0 <= j < |subs| ensures subs[j].uuid != uuid {
        assert !(((s: Subscription) => s.uuid == uuid)(subs[j]));
      }
    } else {
      assert subs[i].uuid == uuid;
      SplicedIds(subs, i);
    }
  }

  /** Splicing out entry `i` of a table with unique ids leaves exactly the
      other ids subscribed, still unique. */
  lemma SplicedIds(subs: seq<Subscription>, i: nat)
    requires UniqueIds(subs) && i < |subs|
    ensures var r := RemoveAt(subs, i);
      && UniqueIds(r)
      && forall u :: Subscribed(r, u) <==> Subscribed(subs, u) && u != subs[i].uuid
  {
    var r := RemoveAt(subs, i);
    forall u ensures Subscribed(r, u) <==> Subscribed(subs, u) && u != subs[i].uuid {
      if Subscribed(subs, u) && u != subs[i].uuid {
        var j :| 0 <= j < |subs| && subs[j].uuid == u;
        if j < i { assert r[j] == subs[j]; } else { assert r[j - 1] == subs[j]; }
      }
      if Subscribed(r, u) {
        var j :| 0 <= j < |r| && r[j].uuid == u;
        if j < i { assert r[j] == subs[j]; } else { assert r[j] == subs[j + 1]; }
      }
    }
  }

  /** A worker message runs a callback exactly when its event is
      `setInterval` and a subscription has its id, and then it is that
      subscription's callback (the only one, ids being unique). */
  lemma {:induction false} FiredTaskSpec(subs: seq<Subscription>, event: string, uuid: string)
    requires UniqueIds(subs)
    ensures var t := FiredTask(subs, event, uuid);
      && (t.Some? <==> event == "setInterval" && Subscribed(subs, uuid))
      && (t.Some? ==> forall j :: 0 <= j < |subs| && subs[j].uuid == uuid ==> subs[j].task == t.value)
  {
    var i := TimerIndex(subs, uuid);
    if i == -1 {
      forall j | 0 <= j < |subs| ensures subs[j].uuid != uuid {
        assert !(((s: Subscription) => s.uuid == uuid)(subs[j]));
      }
    } else {
      assert subs[i].uuid == uuid;
    }
  }

  /** `Interval` and `Unterval` on one id leave the callback of every other
      id as it was. */
  lemma {:induction false} OtherTasksKept(subs: seq<Subscription>, uuid: string, task: Task, u: string)
    requires UniqueIds(subs) && u != uuid
    ensures FiredTask(AddTimer(subs, uuid, task), "setInterval", u) == FiredTask(subs, "setInterval", u)
    ensures FiredTask(RemoveTimer(subs, uuid), "setInterval", u) == FiredTask(subs, "setInterval", u)
  {
    AddTimerSpec(subs, uuid, task);
    RemoveTimerSpec(subs, uuid);
    var a := AddTimer(subs, uuid, task);
    var r := RemoveTimer(subs, uuid);
    FiredTaskSpec(subs, "setInterval", u);
    FiredTaskSpec(a, "setInterval", u);
    FiredTaskSpec(r, "setInterval", u);
    if Subscribed(subs, u) {
      var j :| 0 <= j < |subs| && subs[j].uuid == u;
      assert a[j] == subs[j];
      assert Subscribed(a, u);
      var i := TimerIndex(subs, uuid);
      if i != -1 {
        if j < i {
          assert r[j] == subs[j];
        } else {
          assert subs[i].uuid == uuid;
          assert r[j - 1] == subs[j];
        }
      } else {
        assert r == subs;
      }
    } else {
      assert !Subscribed(a, u) by {
        if !Subscribed(subs, uuid) {
          assert a == subs + [Subscription(uuid, task)];
          assert forall j :: 0 <= j < |a| ==> a[j].uuid != u by {
            forall j | 0 <= j < |a| ensures a[j].uuid != u {
              if j < |subs| { assert a[j] == subs[j]; }
            }
          }
        }
      }
    }
  }

  /** `Interval` on a new id installs the given callback. */
  lemma AddedTask(subs: seq<Subscription>, uuid: string, task: Task)
    requires UniqueIds(subs) && !Subscribed(subs, uuid)
    ensures FiredTask(AddTimer(subs, uuid, task), "setInterval", uuid) == Some(task)
  {
    AddTimerSpec(subs, uuid, task);
    var a := AddTimer(subs, uuid, task);
    FiredTaskSpec(a, "setInterval", uuid);
    assert a[|subs|] == Subscription(uuid, task);
  }

  // ---------------------------------------------------------------------
  // Pending images (`pendingImages`, `sendPendingImages`)
  // ---------------------------------------------------------------------

  datatype PendingImage = PendingImage(context: string, image: string)

  function ImageFrame(p: PendingImage): Frame {
    SetImage(p.context, p.image)
  }

  function ImageFrames(q: seq<PendingImage>): (fs: seq<Frame>)
    ensures |fs| == |q|
    ensures forall i :: 0 <= i < |q| ==> fs[i] == ImageFrame(q[i])
  {
    if q == [] then [] else [ImageFrame(q[0])] + ImageFrames(q[1..])
  }

  /** The frames a drain of `queue` sends, given whether the socket is open
      and whether each `send` call returns normally (`sendOk[i]` for the
      i-th entry). Entries are taken from the front; an entry whose send is
      not made or throws is dropped. */
  function Drained(queue: seq<PendingImage>, open: bool, sendOk: seq<bool>): seq<Frame>
    requires |sendOk| == |queue|
  {
    if queue == [] then []
    else (if open && sendOk[0] then [ImageFrame(queue[0])] else [])
         + Drained(queue[1..], open, sendOk[1..])
  }

  lemma {:induction false} DrainedAppend(q1: seq<PendingImage>, q2: seq<PendingImage>,
                                         open: bool, ok1: seq<bool>, ok2: seq<bool>)
    requires |ok1| == |q1| && |ok2| == |q2|
    ensures Drained(q1 + q2, open, ok1 + ok2) == Drained(q1, open, ok1) + Drained(q2, open, ok2)
  {
    if q1 != [] {
      assert (q1 + q2)[1..] == q1[1..] + q2;
      assert (ok1 + ok2)[1..] == ok1[1..] + ok2;
      DrainedAppend(q1[1..], q2, open, ok1[1..], ok2);
    } else {
      assert q1 + q2 == q2;
      assert ok1 + ok2 == ok2;
    }
  }

  /** FIFO: on an open socket whose sends all succeed, a drain sends every
      queued image, in queue order. */
  lemma {:induction false} DrainedFifo(queue: seq<PendingImage>, sendOk: seq<bool>)
    requires |sendOk| == |queue|
    requires forall i :: 0 <= i < |sendOk| ==> sendOk[i]
    ensures Drained(queue, true, sendOk) == ImageFrames(queue)
  {
    if queue != [] {
      DrainedFifo(queue[1..], sendOk[1..]);
    }
  }

  /** Entries dequeued while the socket is not open are discarded: nothing
      is sent. */
  lemma {:induction false} DrainedClosed(queue: seq<PendingImage>, sendOk: seq<bool>)
    requires |sendOk| == |queue|
    ensures Drained(queue, false, sendOk) == []
  {
    if queue != [] {
      DrainedClosed(queue[1..], sendOk[1..]);
    }
  }

  /** The positions of the queue a drain sends, in increasing order: the
      entries whose send succeeds on an open socket. */
  function DrainedIndices(open: bool, sendOk: seq<bool>): seq<nat>
  {
    if sendOk == [] then []
    else DrainedIndices(open, sendOk[..|sendOk| - 1])
         + (if open && sendOk[|sendOk| - 1] then [|sendOk| - 1] else [])
  }

  /** Draining a queue is draining all but its last entry, then that
      entry; its positions grow the same way. */
  lemma DrainedSnoc(queue: seq<PendingImage>, open: bool, sendOk: seq<bool>)
    requires |sendOk| == |queue| && queue != []
    ensures var n := |queue|;
      && Drained(queue, open, sendOk) == Drained(queue[..n - 1], open, sendOk[..n - 1])
           + (if open && sendOk[n - 1] then [ImageFrame(queue[n - 1])] else [])
      && DrainedIndices(open, sendOk) == DrainedIndices(open, sendOk[..n - 1])
           + (if open && sendOk[n - 1] then [n - 1] else [])
  {
    var n := |queue|;
    DrainedAppend(queue[..n - 1], [queue[n - 1]], open, sendOk[..n - 1], [sendOk[n - 1]]);
    assert queue[..n - 1] + [queue[n - 1]] == queue;
    assert sendOk[..n - 1] + [sendOk[n - 1]] == sendOk;
    assert [queue[n - 1]][1..] == [];
  }

  /** The positions a drain sends are strictly increasing, and they are
      exactly the entries whose send succeeds, none on a closed socket. */
  lemma {:induction false} DrainedIndicesSpec(open: bool, sendOk: seq<bool>)
    ensures !open ==> DrainedIndices(open, sendOk) == []
    ensures var ix := DrainedIndices(open, sendOk);
      && (forall k :: 0 <= k < |ix| ==> ix[k] < |sendOk| && sendOk[ix[k]])
      && (forall k, l :: 0 <= k < l < |ix| ==> ix[k] < ix[l])
      && (forall i :: 0 <= i < |sendOk| && open && sendOk[i] ==> i in ix)
  {
    if sendOk != [] {
      var n := |sendOk|;
      var ok' := sendOk[..n - 1];
      DrainedIndicesSpec(open, ok');
      var ix', ix := DrainedIndices(open, ok'), DrainedIndices(open, sendOk);
      assert ix == ix' + (if open && sendOk[n - 1] then [n - 1] else []);
      forall k | 0 <= k < |ix|
        ensures ix[k] < n && sendOk[ix[k]]
      {
        if k < |ix'| {
          assert ix[k] == ix'[k];
          assert ok'[ix'[k]];
        }
      }
      forall k, l | 0 <= k < l < |ix|
        ensures ix[k] < ix[l]
      {
        assert ix[k] == ix'[k] && ix'[k] < n - 1;
        if l < |ix'| {
          assert ix[l] == ix'[l];
        }
      }
      forall i | 0 <= i < n && open && sendOk[i]
        ensures i in ix
      {
        if i < n - 1 {
          assert ok'[i] == sendOk[i];
          assert i in ix';
        } else {
          assert ix[|ix| - 1] == n - 1;
        }
      }
    }
  }

  /** The k-th frame a drain sends is the image of the entry at its k-th
      position. */
  lemma {:induction false} DrainedAtIndices(queue: seq<PendingImage>, open: bool, sendOk: seq<bool>)
    requires |sendOk| == |queue|
    ensures var d, ix := Drained(queue, open, sendOk), DrainedIndices(open, sendOk);
      && |ix| == |d|
      && forall k :: 0 <= k < |ix| ==> ix[k] < |queue| && d[k] == ImageFrame(queue[ix[k]])
  {
    if queue != [] {
      var n := |queue|;
      var q', ok' := queue[..n - 1], sendOk[..n - 1];
      DrainedAtIndices(q', open, ok');
      DrainedSnoc(queue, open, sendOk);
      var d', ix' := Drained(q', open, ok'), DrainedIndices(open, ok');
      var d, ix := Drained(queue, open, sendOk), DrainedIndices(open, sendOk);
      forall k | 0 <= k < |ix'|
        ensures ix[k] < |queue| && d[k] == ImageFrame(queue[ix[k]])
      {
        assert ix[k] == ix'[k] && d[k] == d'[k];
        assert q'[ix'[k]] == queue[ix[k]];
      }
    }
  }

  /** Whatever happens, a drain sends a sub-list of the queue, in queue
      order: the k-th frame sent is the image of the entry at the k-th of
      the strictly increasing positions `DrainedIndices`, and every entry
      whose send succeeds on an open socket is among them. */
  lemma DrainedInOrder(queue: seq<PendingImage>, open: bool, sendOk: seq<bool>)
    requires |sendOk| == |queue|
    ensures var d, ix := Drained(queue, open, sendOk), DrainedIndices(open, sendOk);
      && |ix| == |d| <= |queue|
      && (forall k :: 0 <= k < |ix| ==> ix[k] < |queue| && open && sendOk[ix[k]] && d[k] == ImageFrame(queue[ix[k]]))
      && (forall k, l :: 0 <= k < l < |ix| ==> ix[k] < ix[l])
      && (forall i :: 0 <= i < |queue| && open && sendOk[i] ==> i in ix)
  {
    DrainedIndicesSpec(open, sendOk);
    DrainedAtIndices(queue, open, sendOk);
    DrainedLength(queue, open, sendOk);
    if !open {
      assert DrainedIndices(open, sendOk) == [];
    }
  }

  lemma {:induction false} DrainedLength(queue: seq<PendingImage>, open: bool, sendOk: seq<bool>)
    requires |sendOk| == |queue|
    ensures |Drained(queue, open, sendOk)| <= |queue|
  {
    if queue != [] {
      DrainedLength(queue[1..], open, sendOk[1..]);
    }
  }

  // ---------------------------------------------------------------------
  // The action registry (`Actions.list` and its static operations)
  // ---------------------------------------------------------------------

  /** An `Actions` instance. Instances are values here: an update to an
      instance is an update of the registry entry with its context. */
  datatype ActionInstance = ActionInstance(
    action: string,
    context: string,
    settings: Settings,
    title: Option<string>,
    titleParameters: Option<TitleParameters>)

  function ContextIndex(list: seq<ActionInstance>, context: string): int {
    FindIndex(list, (a: ActionInstance) => a.context == context)
  }

  predicate HasContext(list: seq<ActionInstance>, context: string) {
    exists i :: 0 <= i < |list| && list[i].context == context
  }

  predicate UniqueContexts(list: seq<ActionInstance>) {
    forall i, j :: 0 <= i < j < |list| ==> list[i].context != list[j].context
  }

  /** `getAction(context)`: the first entry with that context. */
  function GetAction(list: seq<ActionInstance>, context: string): (r: Option<ActionInstance>)
    ensures r.None? <==> !HasContext(list, context)
    ensures r.Some? ==> r.value in list && r.value.context == context
    ensures r.Some? ==>
      exists i :: 0 <= i < |list| && list[i] == r.value && forall j :: 0 <= j < i ==> list[j].context != context
  {
    var i := ContextIndex(list, context);
    if i == -1 then None
    else
      assert list[i].context == context;
      Some(list[i])
  }

  /** `getActions(action)`: the entries of that action type, in order. */
  function GetActions(list: seq<ActionInstance>, action: string): (r: seq<ActionInstance>)
    ensures |r| <= |list|
    ensures forall x :: x in r <==> x in list && x.action == action
    ensures forall x: ActionInstance :: x.action == action ==> multiset(r)[x] == multiset(list)[x]
    ensures forall x: ActionInstance :: x.action != action ==> multiset(r)[x] == 0
  {
    if list == [] then []
    else
      var rest := GetActions(list[1..], action);
      assert list == [list[0]] + list[1..];
      if list[0].action == action then [list[0]] + rest else rest
  }

  /** `addAction`: appends, whatever is already there. */
  function AddAction(list: seq<ActionInstance>, action: string, context: string,
                     settings: Settings): seq<ActionInstance>
  {
    list + [ActionInstance(action, context, settings, None, None)]
  }

  /** `delAction`: splices out the first entry with that context. */
  function DelAction(list: seq<ActionInstance>, context: string): seq<ActionInstance> {
    var i := ContextIndex(list, context);
    if i == -1 then list else RemoveAt(list, i)
  }

  /** `delAction` is a no-op when no entry has the context; otherwise it
      removes exactly the first such entry and keeps the others in order. */
  lemma {:induction false} DelActionSpec(list: seq<ActionInstance>, context: string)
    ensures !HasContext(list, context) ==> DelAction(list, context) == list
    ensures HasContext(list, context) ==>
      exists i :: 0 <= i < |list| && list[i].context == context
        && (forall j :: 0 <= j < i ==> list[j].context != context)
        && DelAction(list, context) == list[..i] + list[i + 1..]
  {
    var i := ContextIndex(list, context);
    if i != -1 {
      assert list[i].context == context;
      assert DelAction(list, context) == list[..i] + list[i + 1..];
    }
  }

  /** Adding an instance for a context the registry did not hold and then
      deleting that context restores the registry, after which `getAction`
      finds nothing. */
  lemma {:induction false} AddThenDel(list: seq<ActionInstance>, action: string, context: string, settings: Settings)
    requires !HasContext(list, context)
    ensures DelAction(AddAction(list, action, context, settings), context) == list
    ensures GetAction(DelAction(AddAction(list, action, context, settings), context), context).None?
  {
    var l := AddAction(list, action, context, settings);
    var i := ContextIndex(l, context);
    assert l[|list|].context == context;
    assert i == |list|;
    assert l[..i] == list;
  }

  /** `addAction` twice for one context gives two entries: it is not
      idempotent by itself. */
  lemma {:induction false} AddActionNotIdempotent(list: seq<ActionInstance>, action: string, context: string, settings: Settings)
    ensures var l := AddAction(AddAction(list, action, context, settings), action, context, settings);
      |l| == |list| + 2 && l[|list|] == l[|list| + 1]
  {
  }

  // ---------------------------------------------------------------------
  // Message routing (`useWatchEvent`)
  // ---------------------------------------------------------------------

  /** The action-level filter: a message reaches a handler set only when it
      has an action, the set has an `ActionID`, the two are equal, and the
      event is not `ActionID` itself. */
  predicate Accepts(msg: Message, actionId: Option<string>) {
    && Truthy(msg.action)
    && Truthy(actionId)
    && msg.action.value == actionId.value
    && msg.event != "ActionID"
  }

  /** The registry after the built-in handler for an accepted action-level
      message. */
  function BuiltInStep(list: seq<ActionInstance>, msg: Message): seq<ActionInstance>
    requires msg.action.Some?
  {
    var i := ContextIndex(list, msg.context);
    if msg.event == "willAppear" then
      if i == -1 then AddAction(list, msg.action.value, msg.context, msg.payload.settings) else list
    else if msg.event == "willDisappear" then
      DelAction(list, msg.context)
    else if msg.event == "didReceiveSettings" then
      if i == -1 then list else list[i := list[i].(settings := msg.payload.settings)]
    else if msg.event == "titleParametersDidChange" then
      if i == -1 then list
      else list[i := list[i].(title := msg.payload.title, titleParameters := msg.payload.titleParameters)]
    else list
  }

  /** The built-in handlers never give a context a second entry; after
      `willAppear` the context is present, after `willDisappear` (with
      unique contexts) it is gone. */
  lemma {:induction false} BuiltInKeepsContextsUnique(list: seq<ActionInstance>, msg: Message)
    requires msg.action.Some?
    requires UniqueContexts(list)
    ensures var r := BuiltInStep(list, msg);
      && UniqueContexts(r)
      && (msg.event == "willAppear" ==> HasContext(r, msg.context))
      && (msg.event == "willDisappear" ==> !HasContext(r, msg.context))
  {
    var i := ContextIndex(list, msg.context);
    var r := BuiltInStep(list, msg);
    if i == -1 {
      forall j | 0 <= j < |list| ensures list[j].context != msg.context {
        assert !(((a: ActionInstance) => a.context == msg.context)(list[j]));
      }
      if msg.event == "willAppear" {
        assert r[|list|].context == msg.context;
      }
    } else {
      assert list[i].context == msg.context;
      if msg.event == "willDisappear" {
        forall j | 0 <= j < |r| ensures r[j].context != msg.context {
          if j < i { assert r[j] == list[j]; } else { assert r[j] == list[j + 1]; }
        }
      }
    }
  }

  /** `didReceiveSettings` and `titleParametersDidChange` only modify an
      existing entry: the registry keeps its length and its contexts, other
      entries are untouched, and a missing context changes nothing. */
  lemma {:induction false} SettingsEventsModifyOnlyExisting(list: seq<ActionInstance>, msg: Message)
    requires msg.action.Some?
    requires msg.event == "didReceiveSettings" || msg.event == "titleParametersDidChange"
    ensures var r := BuiltInStep(list, msg);
      && |r| == |list|
      && (forall j :: 0 <= j < |r| ==> r[j].context == list[j].context && r[j].action == list[j].action)
      && (forall j :: 0 <= j < |r| && list[j].context != msg.context ==> r[j] == list[j])
      && (!HasContext(list, msg.context) ==> r == list)
      && (HasContext(list, msg.context) && msg.event == "didReceiveSettings" ==>
            GetAction(r, msg.context).value.settings == msg.payload.settings)
  {
    var i := ContextIndex(list, msg.context);
    var r := BuiltInStep(list, msg);
    if i == -1 {
      assert !HasContext(list, msg.context);
    } else {
      assert list[i].context == msg.context;
      if msg.event == "didReceiveSettings" {
        assert ContextIndex(r, msg.context) == i by {
          assert r[i].context == msg.context;
          forall j | 0 <= j < i ensures r[j].context != msg.context {
            assert r[j] == list[j];
          }
        }
      }
    }
  }

  // ---------------------------------------------------------------------
  // The store
  // ---------------------------------------------------------------------

  /** How `setImage` treats an image right now. */
  datatype ImageRoute = Queue | SendNow | Decode

  /** `setImage` queues unless the socket exists and is open; on an open
      socket it sends an image whose URL contains `data:` at once, and hands
      any other URL to the image decoder. */
  function RouteImage(server: Socket, url: string): (r: ImageRoute)
    ensures r == Queue <==> !IsOpen(server)
    ensures r == SendNow <==> IsOpen(server) && Includes(url, "data:")
  {
    if !IsOpen(server) then Queue else if Includes(url, "data:") then SendNow else Decode
  }

  /** What one `setImage` call leaves behind: the entries it queued and
      the frames it sent. */
  datatype ImageEffect = ImageEffect(queued: seq<PendingImage>, frames: seq<Frame>)

  /** The effect of `setImage(url)` on the instance `context`, given whether
      `send` would throw. An image is never both sent and queued; it is
      queued when the socket is not open or the send throws, sent when a
      `data:` URL goes out on an open socket, and neither when it goes to
      the decoder. */
  function SetImageEffect(server: Socket, context: string, url: string, sendThrows: bool): (e: ImageEffect)
    ensures |e.queued| + |e.frames| <= 1
    ensures e.queued != [] <==> RouteImage(server, url) == Queue || (RouteImage(server, url) == SendNow && sendThrows)
    ensures e.frames != [] <==> RouteImage(server, url) == SendNow && !sendThrows
    ensures e.queued != [] ==> e.queued == [PendingImage(context, url)]
    ensures e.frames != [] ==> e.frames == [SetImage(context, url)]
  {
    match RouteImage(server, url)
    case Queue => ImageEffect([PendingImage(context, url)], [])
    case SendNow =>
      if sendThrows then ImageEffect([PendingImage(context, url)], [])
      else ImageEffect([], [SetImage(context, url)])
    case Decode => ImageEffect([], [])
  }

  /** The effect of an optional `setImage`: none when there is no image. */
  function OptionalImageEffect(server: Socket, context: string, image: Option<string>,
                               sendThrows: bool): (e: ImageEffect)
    ensures image.None? ==> e == ImageEffect([], [])
    ensures image.Some? ==> e == SetImageEffect(server, context, image.value, sendThrows)
  {
    if image.Some? then SetImageEffect(server, context, image.value, sendThrows) else ImageEffect([], [])
  }

  class Plugin {
    var timers: seq<Subscription>
    var workerLog: seq<WorkerRequest>
    var server: Socket
    var pendingImages: seq<PendingImage>
    var sent: seq<Frame>
    var actions: seq<ActionInstance>
    var globalSettings: Option<Json>
    var devices: set<string>
    var userInfo: Json
    /** The instance id and the registration event supplied by the host at
        startup (`argv[1]` and `argv[2]`). */
    const uuid: string
    const registerEvent: string

    ghost predicate Valid()
      reads this
    {
      UniqueIds(timers)
    }

    /** The store at startup: a socket being opened when the host supplied
        connection arguments, none otherwise. */
    constructor (connect: bool, uuid: string, registerEvent: string)
      ensures Valid()
      ensures server == (if connect then Server(Connecting) else NoServer)
      ensures this.uuid == uuid && this.registerEvent == registerEvent
      ensures timers == [] && workerLog == [] && pendingImages == [] && sent == [] && actions == []
      ensures globalSettings == None && devices == {} && userInfo == JObj([])
    {
      this.uuid := uuid;
      this.registerEvent := registerEvent;
      server := if connect then Server(Connecting) else NoServer;
      timers, workerLog, pendingImages, sent, actions := [], [], [], [], [];
      globalSettings, devices, userInfo := None, {}, JObj([]);
    }

    /** `Interval(uuid, delay, fn)`. */
    method Interval(id: string, delay: int, task: Task)
      requires Valid()
      modifies this`timers, this`workerLog
      ensures Valid()
      ensures timers == AddTimer(old(timers), id, task)
      ensures Subscribed(timers, id)
      ensures workerLog == old(workerLog) + [SetIntervalRequest(id, delay)]
    {
      AddTimerSpec(timers, id, task);
      timers := AddTimer(timers, id, task);
      workerLog := workerLog + [SetIntervalRequest(id, delay)];
    }

    /** `Unterval(uuid)`. */
    method Unterval(id: string)
      requires Valid()
      modifies this`timers, this`workerLog
      ensures Valid()
      ensures timers == RemoveTimer(old(timers), id)
      ensures !Subscribed(timers, id)
      ensures forall u :: u != id ==> (Subscribed(timers, u) <==> Subscribed(old(timers), u))
      ensures workerLog == old(workerLog) + [ClearIntervalRequest(id)]
    {
      RemoveTimerSpec(timers, id);
      timers := RemoveTimer(timers, id);
      workerLog := workerLog + [ClearIntervalRequest(id)];
    }

    /** The callback the timer worker's message `{event, uuid}` runs. */
    function Fire(event: string, id: string): Option<Task>
      reads this
    {
      FiredTask(timers, event, id)
    }

    /** `sendPendingImages`: empties the queue from the front; `sendOk[i]`
        says whether the i-th `send` call returns normally. */
    method SendPendingImages(sendOk: seq<bool>)
      requires |sendOk| == |pendingImages|
      modifies this`pendingImages, this`sent
      ensures pendingImages == []
      ensures sent == old(sent) + Drained(old(pendingImages), IsOpen(server), sendOk)
    {
      if |pendingImages| == 0 {
        return;
      }
      ghost var queue := pendingImages;
      var k := 0;
      while |pendingImages| > 0
        invariant 0 <= k <= |queue|
        invariant pendingImages == queue[k..]
        invariant sent == old(sent) + Drained(queue[..k], IsOpen(server), sendOk[..k])
      {
        var item := pendingImages[0];
        pendingImages := pendingImages[1..];
        if IsOpen(server) && sendOk[k] {
          sent := sent + [SetImage(item.context, item.image)];
        }
        assert queue[..k + 1] == queue[..k] + [queue[k]];
        assert sendOk[..k + 1] == sendOk[..k] + [sendOk[k]];
        DrainedAppend(queue[..k], [queue[k]], IsOpen(server), sendOk[..k], [sendOk[k]]);
        k := k + 1;
      }
      assert queue[..k] == queue;
      assert sendOk[..k] == sendOk;
    }

    /** The worker's message `{event, uuid}` for the store's own callback:
        when it fires the periodic drain, the queue is drained; any other
        message leaves the queue and the frames alone. */
    method OnWorkerMessage(event: string, id: string, sendOk: seq<bool>)
      requires Valid()
      requires |sendOk| == |pendingImages|
      modifies this`pendingImages, this`sent
      ensures Fire(event, id) == Some(FlushPendingImages) ==>
        pendingImages == [] && sent == old(sent) + Drained(old(pendingImages), IsOpen(server), sendOk)
      ensures Fire(event, id) != Some(FlushPendingImages) ==>
        pendingImages == old(pendingImages) && sent == old(sent)
      ensures event != "setInterval" || !Subscribed(timers, id) ==>
        pendingImages == old(pendingImages) && sent == old(sent)
    {
      FiredTaskSpec(timers, event, id);
      if Fire(event, id) == Some(FlushPendingImages) {
        SendPendingImages(sendOk);
      }
    }

    /** `server.onopen`: registers, drains the queue, and arms the periodic
        drain. */
    method OnOpen(sendOk: seq<bool>)
      requires Valid()
      requires server.Server?
      requires |sendOk| == |pendingImages|
      modifies this`server, this`sent, this`pendingImages, this`timers, this`workerLog
      ensures Valid()
      ensures server == Server(Open)
      ensures pendingImages == []
      ensures sent == old(sent) + [Register(registerEvent, uuid)] + ImageFramesSent(old(pendingImages), sendOk)
      ensures timers == AddTimer(old(timers), "sendPendingImages", FlushPendingImages)
      ensures workerLog == old(workerLog) + [SetIntervalRequest("sendPendingImages", 5000)]
    {
      server := Server(Open);
      sent := sent + [Register(registerEvent, uuid)];
      SendPendingImages(sendOk);
      Interval("sendPendingImages", 5000, FlushPendingImages);
    }

    /** The frames an open socket sends for the queue. */
    static function ImageFramesSent(queue: seq<PendingImage>, sendOk: seq<bool>): seq<Frame>
      requires |sendOk| == |queue|
    {
      Drained(queue, true, sendOk)
    }

    /** `server.onclose`: stops the periodic drain; the registry and the
        queue are kept. */
    method OnClose()
      requires Valid()
      requires server.Server?
      modifies this`server, this`timers, this`workerLog
      ensures Valid()
      ensures server == Server(Closed)
      ensures timers == RemoveTimer(old(timers), "sendPendingImages")
      ensures workerLog == old(workerLog) + [ClearIntervalRequest("sendPendingImages")]
    {
      server := Server(Closed);
      Unterval("sendPendingImages");
    }

    /** `addAction`. */
    method AddActionEntry(action: string, context: string, settings: Settings)
      returns (inst: ActionInstance)
      modifies this`actions
      ensures inst == ActionInstance(action, context, settings, None, None)
      ensures actions == old(actions) + [inst]
    {
      inst := ActionInstance(action, context, settings, None, None);
      actions := actions + [inst];
    }

    /** `delAction`. */
    method DelActionEntry(context: string)
      modifies this`actions
      ensures actions == DelAction(old(actions), context)
    {
      var i := ContextIndex(actions, context);
      if i != -1 {
        actions := RemoveAt(actions, i);
      }
    }

    /** `setImage(url)` of the instance `inst`; `sendThrows` says whether
        `send` would throw. */
    method SendImage(inst: ActionInstance, url: string, sendThrows: bool)
      modifies this`pendingImages, this`sent
      ensures var e := SetImageEffect(server, inst.context, url, sendThrows);
        pendingImages == old(pendingImages) + e.queued && sent == old(sent) + e.frames
    {
      if server.NoServer? {
        pendingImages := pendingImages + [PendingImage(inst.context, url)];
        return;
      }
      if server.readyState != Open {
        pendingImages := pendingImages + [PendingImage(inst.context, url)];
        return;
      }
      if Includes(url, "data:") {
        if sendThrows {
          pendingImages := pendingImages + [PendingImage(inst.context, url)];
        } else {
          sent := sent + [SetImage(inst.context, url)];
        }
        return;
      }
    }

    /** `setTitle(title)`: sent only when there is a server. */
    method SendTitle(inst: ActionInstance, title: string)
      modifies this`sent
      ensures sent == old(sent) + (if server.NoServer? then [] else [SetTitle(inst.context, title)])
    {
      if server.NoServer? {
        return;
      }
      sent := sent + [SetTitle(inst.context, title)];
    }

    /** `setState(state)`: sent only when there is a server. */
    method SendState(inst: ActionInstance, state: int)
      modifies this`sent
      ensures sent == old(sent) + (if server.NoServer? then [] else [SetState(inst.context, state)])
    {
      if server.NoServer? {
        return;
      }
      sent := sent + [SetState(inst.context, state)];
    }

    /** `sendToPropertyInspector(payload)`: sent only when there is a
        server. */
    method SendToInspector(inst: ActionInstance, payload: Json)
      modifies this`sent
      ensures sent == old(sent) +
        (if server.NoServer? then [] else [SendToPropertyInspector(inst.action, inst.context, payload)])
    {
      if server.NoServer? {
        return;
      }
      sent := sent + [SendToPropertyInspector(inst.action, inst.context, payload)];
    }

    /** `openUrl(url)`: sent only when there is a server. */
    method SendOpenUrl(url: string)
      modifies this`sent
      ensures sent == old(sent) + (if server.NoServer? then [] else [OpenUrl(url)])
    {
      if server.NoServer? {
        return;
      }
      sent := sent + [OpenUrl(url)];
    }

    /** `setSettings(payload)`: the instance's settings are overwritten
        first, whether or not there is a server to send them to. */
    method StoreSettings(inst: ActionInstance, payload: Settings)
      modifies this`actions, this`sent
      ensures var i := ContextIndex(old(actions), inst.context);
        actions == if i == -1 then old(actions) else old(actions)[i := old(actions)[i].(settings := payload)]
      ensures sent == old(sent) + (if server.NoServer? then [] else [SetSettings(inst.context, payload)])
    {
      var i := ContextIndex(actions, inst.context);
      if i != -1 {
        actions := actions[i := actions[i].(settings := payload)];
      }
      if server.NoServer? {
        return;
      }
      sent := sent + [SetSettings(inst.context, payload)];
    }

    /** `setGlobalSettings(payload)`: sent when there is a server; stored in
        any case. */
    method StoreGlobalSettings(payload: Json)
      modifies this`globalSettings, this`sent
      ensures globalSettings == Some(payload)
      ensures sent == old(sent) + (if server.NoServer? then [] else [SetGlobalSettings(uuid, payload)])
    {
      if server.Server? {
        sent := sent + [SetGlobalSettings(uuid, payload)];
      }
      globalSettings := Some(payload);
    }

    /** `getGlobalSettings()`: sent only when there is a server. */
    method RequestGlobalSettings()
      modifies this`sent
      ensures sent == old(sent) + (if server.NoServer? then [] else [GetGlobalSettings(uuid)])
    {
      if server.Server? {
        sent := sent + [GetGlobalSettings(uuid)];
      }
    }

    /** The built-in part of the plugin-level dispatcher: messages with an
        action are ignored; global settings, the device set and the user
        information follow their events. */
    method DispatchPluginMessage(msg: Message)
      modifies this`globalSettings, this`devices, this`userInfo
      ensures Truthy(msg.action) ==>
        globalSettings == old(globalSettings) && devices == old(devices) && userInfo == old(userInfo)
      ensures !Truthy(msg.action) && msg.event == "didReceiveGlobalSettings" ==>
        globalSettings == Some(msg.payload.globalSettings)
      ensures !Truthy(msg.action) && msg.event == "deviceDidConnect" ==>
        devices == old(devices) + (if Truthy(msg.device) then {msg.device.value} else {})
      ensures !Truthy(msg.action) && msg.event == "deviceDidDisconnect" ==>
        devices == old(devices) - (if Truthy(msg.device) then {msg.device.value} else {})
      ensures !Truthy(msg.action) && msg.event == "sendUserInfo" ==> userInfo == msg.payload.raw
      ensures msg.event != "didReceiveGlobalSettings" ==> globalSettings == old(globalSettings)
      ensures msg.event != "deviceDidConnect" && msg.event != "deviceDidDisconnect" ==> devices == old(devices)
      ensures msg.event != "sendUserInfo" ==> userInfo == old(userInfo)
    {
      if Truthy(msg.action) {
        return;
      }
      if msg.event == "didReceiveGlobalSettings" {
        globalSettings := Some(msg.payload.globalSettings);
      } else if msg.event == "deviceDidConnect" {
        if Truthy(msg.device) {
          devices := devices + {msg.device.value};
        }
      } else if msg.event == "deviceDidDisconnect" {
        if Truthy(msg.device) {
          devices := devices - {msg.device.value};
        }
      } else if msg.event == "sendUserInfo" {
        userInfo := msg.payload.raw;
      }
    }

    /** The built-in action-level handler, run on an accepted message before
        the handler set's own. */
    method RunBuiltIn(msg: Message)
      requires msg.action.Some?
      modifies this`actions
      ensures actions == BuiltInStep(old(actions), msg)
    {
      var i := ContextIndex(actions, msg.context);
      if msg.event == "willAppear" {
        if i == -1 {
          var _ := AddActionEntry(msg.action.value, msg.context, msg.payload.settings);
        }
      } else if msg.event == "willDisappear" {
        DelActionEntry(msg.context);
      } else if msg.event == "didReceiveSettings" {
        if i != -1 {
          actions := actions[i := actions[i].(settings := msg.payload.settings)];
        }
      } else if msg.event == "titleParametersDidChange" {
        if i != -1 {
          actions := actions[i := actions[i].(title := msg.payload.title,
                                              titleParameters := msg.payload.titleParameters)];
        }
      }
    }
  }
}
