/**
 * The MQTT client's bookkeeping: the topic registry that `listen` assembles
 * from the data sources' declared handlers, the listener tasks it starts,
 * and `cancel_tasks`.
 */
module Mqtt {
  import opened Wrappers

  /** A handler coroutine function declared by a data source; opaque here. */
  datatype Handler = Handler(id: nat)

  /** A declared registration `MQTTTopic(topic, handler)`: a topic and its own
      handler list, which holds the one handler it was built with. */
  datatype MqttTopic = MqttTopic(topic: string, handler: Handler)

  datatype Status = Running | Done | Cancelled

  /** A listener task: the handler it runs over the topic's stream, and its state. */
  datatype Task = Task(topic: string, handler: Handler, status: Status)

  /** `task.done()`: a task that finished or was cancelled. */
  predicate IsDone(t: Task) {
    t.status != Running
  }

  /** The registry: each topic's handler list. */
  type Registry = map<string, seq<Handler>>

  predicate Distinct(s: seq<string>) {
    forall i, j :: 0 <= i < j < |s| ==> s[i] != s[j]
  }

  /** `order` lists the registry's keys once each, in the dict's insertion
      order, and no entry has an empty handler list. */
  ghost predicate InSync(order: seq<string>, topics: Registry) {
    && Distinct(order)
    && (forall t :: t in order <==> t in topics)
    && (forall t :: t in topics ==> topics[t] != [])
  }

  /** Every task runs a handler registered for its topic. */
  ghost predicate TasksRegistered(tasks: seq<Task>, topics: Registry) {
    forall i :: 0 <= i < |tasks| ==> tasks[i].topic in topics && tasks[i].handler in topics[tasks[i].topic]
  }

  // ---------------------------------------------------------------------------
  // Topic assembly (lines 172-186)

  /** One declaration: append to an existing entry, or insert a new one. */
  function Register(topics: Registry, reg: MqttTopic): Registry {
    if reg.topic in topics then topics[reg.topic := topics[reg.topic] + [reg.handler]]
    else topics[reg.topic := [reg.handler]]
  }

  /** The dict's key order after one declaration: a new key goes last. */
  function RegisterOrder(order: seq<string>, reg: MqttTopic): seq<string> {
    if reg.topic in order then order else order + [reg.topic]
  }

  /** All declarations, data source by data source, each in its own order. */
  function Flatten(declared: seq<seq<MqttTopic>>): seq<MqttTopic> {
    if declared == [] then [] else Flatten(declared[..|declared| - 1]) + declared[|declared| - 1]
  }

  function Assemble(topics: Registry, regs: seq<MqttTopic>): Registry {
    if regs == [] then topics else Register(Assemble(topics, regs[..|regs| - 1]), regs[|regs| - 1])
  }

  function AssembleOrder(order: seq<string>, regs: seq<MqttTopic>): seq<string> {
    if regs == [] then order else RegisterOrder(AssembleOrder(order, regs[..|regs| - 1]), regs[|regs| - 1])
  }

  /** The handler list of `t`, empty when `t` is not registered. */
  function Entry(topics: Registry, t: string): seq<Handler> {
    if t in topics then topics[t] else []
  }

  ghost predicate Declares(regs: seq<MqttTopic>, t: string) {
    exists i :: 0 <= i < |regs| && regs[i].topic == t
  }

  /** The handlers declared for `t`, in declaration order. */
  function HandlersFor(regs: seq<MqttTopic>, t: string): (r: seq<Handler>)
    ensures r == [] <==> !Declares(regs, t)
    ensures forall h :: h in r ==> MqttTopic(t, h) in regs
  {
    if regs == [] then []
    else
      var n := |regs| - 1;
      assert forall i :: 0 <= i < n ==> regs[..n][i] == regs[i];
      HandlersFor(regs[..n], t) + (if regs[n].topic == t then [regs[n].handler] else [])
  }

  lemma AssembleSnoc(topics: Registry, order: seq<string>, regs: seq<MqttTopic>, reg: MqttTopic)
    ensures Assemble(topics, regs + [reg]) == Register(Assemble(topics, regs), reg)
    ensures AssembleOrder(order, regs + [reg]) == RegisterOrder(AssembleOrder(order, regs), reg)
  {
    assert (regs + [reg])[..|regs|] == regs;
  }

  lemma {:induction false} AssembleAppend(topics: Registry, order: seq<string>, a: seq<MqttTopic>, b: seq<MqttTopic>)
    ensures Assemble(topics, a + b) == Assemble(Assemble(topics, a), b)
    ensures AssembleOrder(order, a + b) == AssembleOrder(AssembleOrder(order, a), b)
  {
    if b == [] {
      assert a + b == a;
    } else {
      var n := |b| - 1;
      assert a + b == (a + b[..n]) + [b[n]];
      AssembleSnoc(topics, order, a + b[..n], b[n]);
      AssembleAppend(topics, order, a, b[..n]);
    }
  }

  lemma {:induction false} FlattenSnoc(declared: seq<seq<MqttTopic>>, regs: seq<MqttTopic>)
    ensures Flatten(declared + [regs]) == Flatten(declared) + regs
  {
    assert (declared + [regs])[..|declared|] == declared;
  }

  /** After assembly a topic is registered exactly when it was before or is
      declared, and its handler list is the old one followed by every handler
      declared for it, in declaration order. */
  lemma {:induction false} AssembleAt(topics: Registry, regs: seq<MqttTopic>, t: string)
    ensures t in Assemble(topics, regs) <==> t in topics || Declares(regs, t)
    ensures t in Assemble(topics, regs) ==> Assemble(topics, regs)[t] == Entry(topics, t) + HandlersFor(regs, t)
  {
    if regs != [] {
      var n := |regs| - 1;
      AssembleAt(topics, regs[..n], t);
      assert Declares(regs, t) <==> Declares(regs[..n], t) || regs[n].topic == t by {
        if Declares(regs, t) && regs[n].topic != t {
          var i :| 0 <= i < |regs| && regs[i].topic == t;
          assert regs[..n][i].topic == t;
        }
        if Declares(regs[..n], t) {
          var i :| 0 <= i < n && regs[..n][i].topic == t;
          assert regs[i].topic == t;
        }
      }
    }
  }

  /** Assembly adds exactly the declared topics to the key set and never
      replaces an entry: every old handler list is a prefix of the new one. */
  lemma AssembleExtends(topics: Registry, regs: seq<MqttTopic>)
    ensures Assemble(topics, regs).Keys == topics.Keys + set i | 0 <= i < |regs| :: regs[i].topic
    ensures forall t :: t in topics ==> topics[t] <= Assemble(topics, regs)[t]
  {
    forall t ensures t in Assemble(topics, regs) <==> t in topics || Declares(regs, t) {
      AssembleAt(topics, regs, t);
    }
    forall t | t in topics ensures topics[t] <= Assemble(topics, regs)[t] {
      AssembleAt(topics, regs, t);
    }
    var declaredTopics := set i | 0 <= i < |regs| :: regs[i].topic;
    forall t ensures t in declaredTopics <==> Declares(regs, t) {
      if Declares(regs, t) {
        var i :| 0 <= i < |regs| && regs[i].topic == t;
        assert regs[i].topic in declaredTopics;
      }
    }
  }

  /** A repeated declaration of a registered topic makes its list exactly one
      handler longer and leaves every other entry alone. */
  lemma RepeatGrowsByOne(topics: Registry, reg: MqttTopic)
    requires reg.topic in topics
    ensures Register(topics, reg).Keys == topics.Keys
    ensures |Register(topics, reg)[reg.topic]| == |topics[reg.topic]| + 1
    ensures topics[reg.topic] <= Register(topics, reg)[reg.topic]
    ensures forall t :: t in topics && t != reg.topic ==> Register(topics, reg)[t] == topics[t]
  {
  }

  lemma RegisterKeepsTasks(tasks: seq<Task>, topics: Registry, reg: MqttTopic)
    requires TasksRegistered(tasks, topics)
    ensures TasksRegistered(tasks, Register(topics, reg))
  {
    forall i | 0 <= i < |tasks|
      ensures tasks[i].topic in Register(topics, reg) && tasks[i].handler in Register(topics, reg)[tasks[i].topic]
    {
      var t := tasks[i].topic;
      assert tasks[i].handler in topics[t];
      assert topics[t] <= Register(topics, reg)[t];
    }
  }

  lemma RegisterKeepsSync(order: seq<string>, topics: Registry, reg: MqttTopic)
    requires InSync(order, topics)
    ensures InSync(RegisterOrder(order, reg), Register(topics, reg))
    ensures order <= RegisterOrder(order, reg)
  {
    if reg.topic !in order {
      var o := order + [reg.topic];
      assert forall i :: 0 <= i < |order| ==> o[i] == order[i];
    }
  }

  /** Assembly keeps the key order in step with the registry and only appends
      new keys to it. */
  lemma {:induction false} AssembleKeepsSync(order: seq<string>, topics: Registry, regs: seq<MqttTopic>)
    requires InSync(order, topics)
    ensures InSync(AssembleOrder(order, regs), Assemble(topics, regs))
    ensures order <= AssembleOrder(order, regs)
  {
    if regs != [] {
      var n := |regs| - 1;
      AssembleKeepsSync(order, topics, regs[..n]);
      RegisterKeepsSync(AssembleOrder(order, regs[..n]), Assemble(topics, regs[..n]), regs[n]);
    }
  }

  // ---------------------------------------------------------------------------
  // Listener tasks (lines 189-196)

  /** One running task per handler of topic `t`, in list order. */
  function Listeners(t: string, hs: seq<Handler>): (r: seq<Task>)
    ensures |r| == |hs|
    ensures forall i :: 0 <= i < |hs| ==> r[i] == Task(t, hs[i], Running)
  {
    if hs == [] then [] else Listeners(t, hs[..|hs| - 1]) + [Task(t, hs[|hs| - 1], Running)]
  }

  /** The tasks started for the topics in `order`, topic by topic. */
  function TaskList(order: seq<string>, topics: Registry): seq<Task>
    requires forall t :: t in order ==> t in topics
  {
    if order == [] then []
    else
      var n := |order| - 1;
      assert forall t :: t in order[..n] ==> t in order;
      TaskList(order[..n], topics) + Listeners(order[n], topics[order[n]])
  }

  /** The total length of the handler lists of the topics in `order`. */
  function HandlerTotal(order: seq<string>, topics: Registry): nat {
    if order == [] then 0 else HandlerTotal(order[..|order| - 1], topics) + |Entry(topics, order[|order| - 1])|
  }

  /** The handlers of the tasks on topic `t`, in task order. */
  function HandlersOn(tasks: seq<Task>, t: string): seq<Handler> {
    if tasks == [] then []
    else
      var n := |tasks| - 1;
      HandlersOn(tasks[..n], t) + (if tasks[n].topic == t then [tasks[n].handler] else [])
  }

  /** One task per (topic, handler element): the count is the total length of the lists. */
  lemma {:induction false} TaskCount(order: seq<string>, topics: Registry)
    requires forall t :: t in order ==> t in topics
    ensures |TaskList(order, topics)| == HandlerTotal(order, topics)
  {
    if order != [] {
      var n := |order| - 1;
      var prefix := order[..n];
      assert forall t :: t in prefix ==> t in order;
      TaskCount(prefix, topics);
      assert TaskList(order, topics) == TaskList(prefix, topics) + Listeners(order[n], topics[order[n]]);
      assert HandlerTotal(order, topics) == HandlerTotal(prefix, topics) + |Entry(topics, order[n])|;
    }
  }

  lemma {:induction false} HandlersOnAppend(a: seq<Task>, b: seq<Task>, t: string)
    ensures HandlersOn(a + b, t) == HandlersOn(a, t) + HandlersOn(b, t)
  {
    if b == [] {
      assert a + b == a;
    } else {
      var n := |b| - 1;
      assert (a + b)[..|a| + n] == a + b[..n];
      assert (a + b)[|a| + n] == b[n];
      HandlersOnAppend(a, b[..n], t);
    }
  }

  lemma {:induction false} HandlersOnListeners(u: string, hs: seq<Handler>, t: string)
    ensures HandlersOn(Listeners(u, hs), t) == if u == t then hs else []
  {
    if hs != [] {
      var n := |hs| - 1;
      HandlersOnListeners(u, hs[..n], t);
      assert Listeners(u, hs)[..n] == Listeners(u, hs[..n]);
      if u == t {
        assert hs[..n] + [hs[n]] == hs;
      }
    }
  }

  /** Every topic in `order` gets, in order, one running task per element of
      its handler list, and no other topic gets any. */
  lemma TasksPerTopic(order: seq<string>, topics: Registry, t: string)
    requires Distinct(order) && forall u :: u in order ==> u in topics
    ensures HandlersOn(TaskList(order, topics), t) == if t in order then topics[t] else []
    ensures forall i :: 0 <= i < |TaskList(order, topics)| ==>
              TaskList(order, topics)[i].status == Running && TaskList(order, topics)[i].topic in order
  {
    TaskListHandlers(order, topics, t);
    TaskListRunning(order, topics);
  }

  lemma {:induction false} TaskListHandlers(order: seq<string>, topics: Registry, t: string)
    requires Distinct(order) && forall u :: u in order ==> u in topics
    ensures HandlersOn(TaskList(order, topics), t) == if t in order then topics[t] else []
  {
    if order != [] {
      var n := |order| - 1;
      var prefix := order[..n];
      assert forall u :: u in prefix ==> u in order;
      assert Distinct(prefix);
      TaskListHandlers(prefix, topics, t);
      var front: seq<Task> := TaskList(prefix, topics);
      var back: seq<Task> := Listeners(order[n], topics[order[n]]);
      HandlersOnAppend(front, back, t);
      HandlersOnListeners(order[n], topics[order[n]], t);
      assert HandlersOn(TaskList(order, topics), t) == HandlersOn(front, t) + HandlersOn(back, t);
      if t == order[n] {
        assert t !in prefix;
        assert HandlersOn(front, t) == [];
        assert HandlersOn(back, t) == topics[t];
      } else {
        assert t in order <==> t in prefix;
        assert HandlersOn(back, t) == [];
      }
    }
  }

  lemma {:induction false} TaskListRunning(order: seq<string>, topics: Registry)
    requires forall u :: u in order ==> u in topics
    ensures forall i :: 0 <= i < |TaskList(order, topics)| ==>
              TaskList(order, topics)[i].status == Running && TaskList(order, topics)[i].topic in order
  {
    if order != [] {
      var n := |order| - 1;
      var prefix := order[..n];
      assert forall u :: u in prefix ==> u in order;
      TaskListRunning(prefix, topics);
      var front: seq<Task> := TaskList(prefix, topics);
      var back: seq<Task> := Listeners(order[n], topics[order[n]]);
      assert TaskList(order, topics) == front + back;
      forall i | 0 <= i < |front + back|
        ensures (front + back)[i].status == Running && (front + back)[i].topic in order
      {
        if i >= |front| {
          assert (front + back)[i] == back[i - |front|];
        } else {
          assert (front + back)[i] == front[i];
          assert front[i].topic in prefix;
        }
      }
    }
  }

  lemma {:induction false} HandlerTotalFrame(order: seq<string>, topics: Registry, t: string, hs: seq<Handler>)
    requires t !in order
    ensures HandlerTotal(order, topics[t := hs]) == HandlerTotal(order, topics)
  {
    if order != [] {
      var n := |order| - 1;
      assert order[n] != t;
      HandlerTotalFrame(order[..n], topics, t, hs);
    }
  }

  lemma {:induction false} HandlerTotalGrow(order: seq<string>, topics: Registry, t: string, h: Handler)
    requires Distinct(order) && t in order && t in topics
    ensures HandlerTotal(order, topics[t := topics[t] + [h]]) == HandlerTotal(order, topics) + 1
  {
    var n := |order| - 1;
    var prefix := order[..n];
    assert Distinct(prefix);
    if order[n] == t {
      assert t !in prefix;
      HandlerTotalFrame(prefix, topics, t, topics[t] + [h]);
    } else {
      assert t in prefix;
      HandlerTotalGrow(prefix, topics, t, h);
    }
  }

  lemma RegisterAddsOne(order: seq<string>, topics: Registry, reg: MqttTopic)
    requires InSync(order, topics)
    ensures HandlerTotal(RegisterOrder(order, reg), Register(topics, reg)) == HandlerTotal(order, topics) + 1
  {
    if reg.topic in order {
      HandlerTotalGrow(order, topics, reg.topic, reg.handler);
    } else {
      var o := order + [reg.topic];
      assert o[..|order|] == order;
      HandlerTotalFrame(order, topics, reg.topic, [reg.handler]);
    }
  }

  /** Each declaration adds exactly one handler element to the registry. */
  lemma {:induction false} AssembledHandlerTotal(order: seq<string>, topics: Registry, regs: seq<MqttTopic>)
    requires InSync(order, topics)
    ensures HandlerTotal(AssembleOrder(order, regs), Assemble(topics, regs)) == HandlerTotal(order, topics) + |regs|
  {
    if regs != [] {
      var n := |regs| - 1;
      AssembledHandlerTotal(order, topics, regs[..n]);
      AssembleKeepsSync(order, topics, regs[..n]);
      RegisterAddsOne(AssembleOrder(order, regs[..n]), Assemble(topics, regs[..n]), regs[n]);
    }
  }

  /** A session starts one task per handler element of the whole registry:
      the old elements again plus one per new declaration. */
  lemma SessionTaskCount(order: seq<string>, topics: Registry, regs: seq<MqttTopic>)
    requires InSync(order, topics)
    ensures forall t :: t in AssembleOrder(order, regs) ==> t in Assemble(topics, regs)
    ensures |TaskList(AssembleOrder(order, regs), Assemble(topics, regs))| == HandlerTotal(order, topics) + |regs|
  {
    AssembleKeepsSync(order, topics, regs);
    TaskCount(AssembleOrder(order, regs), Assemble(topics, regs));
    AssembledHandlerTotal(order, topics, regs);
  }

  // ---------------------------------------------------------------------------
  // cancel_tasks (lines 204-212)

  function Cancel(t: Task): Task {
    if IsDone(t) then t else t.(status := Cancelled)
  }

  /** Every unfinished task cancelled; finished ones left alone. */
  function CancelAll(tasks: seq<Task>): (r: seq<Task>)
    ensures |r| == |tasks|
    ensures forall i :: 0 <= i < |r| ==> IsDone(r[i])
    ensures forall i :: 0 <= i < |tasks| ==> IsDone(tasks[i]) ==> r[i] == tasks[i]
    ensures forall i :: 0 <= i < |tasks| ==> tasks[i].status == Running ==> r[i].status == Cancelled
    ensures forall i :: 0 <= i < |tasks| ==> r[i].topic == tasks[i].topic && r[i].handler == tasks[i].handler
  {
    seq(|tasks|, i requires 0 <= i < |tasks| => Cancel(tasks[i]))
  }

  /** Cancelling twice is cancelling once. */
  lemma CancelAllIdempotent(tasks: seq<Task>)
    ensures CancelAll(CancelAll(tasks)) == CancelAll(tasks)
  {
  }

  // ---------------------------------------------------------------------------
  // The controller

  class MqttController {
    /** `self.topics`: each topic's handler list. */
    var topics: Registry
    /** The insertion order of `topics`' keys, which `items()` follows. */
    var topicOrder: seq<string>
    /** `self.tasks`: every task started, in creation order. */
    var tasks: seq<Task>

    ghost predicate Valid()
      reads this
    {
      InSync(topicOrder, topics) && TasksRegistered(tasks, topics)
    }

    constructor ()
      ensures Valid() && topics == map[] && topicOrder == [] && tasks == []
    {
      topics, topicOrder, tasks := map[], [], [];
    }

    /** The bookkeeping part of one `listen` session, given what each data
        source's `handlers()` returns. The registry and the tasks persist
        from earlier sessions. */
    method Listen(declared: seq<seq<MqttTopic>>)
      requires Valid()
      modifies this
      ensures Valid()
      ensures topics == Assemble(old(topics), Flatten(declared))
      ensures topicOrder == AssembleOrder(old(topicOrder), Flatten(declared))
      ensures tasks == old(tasks) + TaskList(topicOrder, topics)
    {
      RegisterAll(declared);
      StartListeners();
    }

    /** Lines 172-186: fold every declaration into the registry, data source
        by data source. */
    method RegisterAll(declared: seq<seq<MqttTopic>>)
      requires Valid()
      modifies this`topics, this`topicOrder
      ensures Valid()
      ensures topics == Assemble(old(topics), Flatten(declared))
      ensures topicOrder == AssembleOrder(old(topicOrder), Flatten(declared))
    {
      for i := 0 to |declared|
        invariant Valid()
        invariant topics == Assemble(old(topics), Flatten(declared[..i]))
        invariant topicOrder == AssembleOrder(old(topicOrder), Flatten(declared[..i]))
      {
        ghost var before := Flatten(declared[..i]);
        RegisterSource(declared[i]);
        AssembleAppend(old(topics), old(topicOrder), before, declared[i]);
        assert declared[..i + 1] == declared[..i] + [declared[i]];
        FlattenSnoc(declared[..i], declared[i]);
      }
      assert declared[..|declared|] == declared;
    }

    /** Lines 179-186: the declarations of one data source, in order. */
    method RegisterSource(dsHandlers: seq<MqttTopic>)
      requires Valid()
      modifies this`topics, this`topicOrder
      ensures Valid()
      ensures topics == Assemble(old(topics), dsHandlers)
      ensures topicOrder == AssembleOrder(old(topicOrder), dsHandlers)
    {
      for j := 0 to |dsHandlers|
        invariant Valid()
        invariant topics == Assemble(old(topics), dsHandlers[..j])
        invariant topicOrder == AssembleOrder(old(topicOrder), dsHandlers[..j])
      {
        assert dsHandlers[..j + 1][..j] == dsHandlers[..j];
        AddRegistration(dsHandlers[j]);
      }
      assert dsHandlers[..|dsHandlers|] == dsHandlers;
    }

    /** Lines 180-186: one declaration. */
    method AddRegistration(reg: MqttTopic)
      requires Valid()
      modifies this`topics, this`topicOrder
      ensures Valid()
      ensures topics == Register(old(topics), reg)
      ensures topicOrder == RegisterOrder(old(topicOrder), reg)
    {
      RegisterKeepsSync(topicOrder, topics, reg);
      RegisterKeepsTasks(tasks, topics, reg);
      if reg.topic in topics {
        topics := topics[reg.topic := topics[reg.topic] + [reg.handler]];
      } else {
        topics := topics[reg.topic := [reg.handler]];
        topicOrder := topicOrder + [reg.topic];
      }
    }

    /** Lines 189-196: one running task per (topic, handler element), topics in
        insertion order. */
    method StartListeners()
      requires Valid()
      modifies this`tasks
      ensures Valid()
      ensures tasks == old(tasks) + TaskList(topicOrder, topics)
    {
      for k := 0 to |topicOrder|
        invariant Valid()
        invariant forall t :: t in topicOrder[..k] ==> t in topics
        invariant tasks == old(tasks) + TaskList(topicOrder[..k], topics)
      {
        ghost var done := tasks;
        StartTopicListeners(topicOrder[k]);
        assert topicOrder[..k + 1][..k] == topicOrder[..k];
        assert tasks == done + Listeners(topicOrder[k], topics[topicOrder[k]]);
      }
      assert topicOrder[..|topicOrder|] == topicOrder;
    }

    /** Lines 194-196: the tasks of one topic, one per element of its list. */
    method StartTopicListeners(topic: string)
      requires Valid() && topic in topics
      modifies this`tasks
      ensures Valid()
      ensures tasks == old(tasks) + Listeners(topic, topics[topic])
    {
      var handlers := topics[topic];
      for m := 0 to |handlers|
        invariant TasksRegistered(tasks, topics)
        invariant tasks == old(tasks) + Listeners(topic, handlers[..m])
      {
        tasks := tasks + [Task(topic, handlers[m], Running)];
        assert handlers[..m + 1] == handlers[..m] + [handlers[m]];
      }
      assert handlers[..|handlers|] == handlers;
    }

    /** `cancel_tasks`: every task that is not done is cancelled. */
    method CancelTasks()
      requires Valid()
      modifies this`tasks
      ensures Valid()
      ensures tasks == CancelAll(old(tasks))
    {
      for i := 0 to |tasks|
        invariant |tasks| == |old(tasks)|
        invariant forall k :: 0 <= k < i ==> tasks[k] == Cancel(old(tasks)[k])
        invariant forall k :: i <= k < |tasks| ==> tasks[k] == old(tasks)[k]
        invariant Valid()
      {
        if IsDone(tasks[i]) {
          continue;
        }
        tasks := tasks[i := tasks[i].(status := Cancelled)];
      }
    }
  }

  // ---------------------------------------------------------------------------
  // Line 183 as written

  /** An element of a handler list as the code builds it: line 186 keeps the
      registration's list, whose element is its handler; line 183 appends the
      repeating registration's whole handler list as one element. */
  datatype Callee = Callable(handler: Handler) | HandlerList(handlers: seq<Handler>)

  function RegisterAsWritten(topics: map<string, seq<Callee>>, reg: MqttTopic): map<string, seq<Callee>> {
    if reg.topic in topics then topics[reg.topic := topics[reg.topic] + [HandlerList([reg.handler])]]
    else topics[reg.topic := [Callable(reg.handler)]]
  }

  function AssembleAsWritten(topics: map<string, seq<Callee>>, regs: seq<MqttTopic>): map<string, seq<Callee>> {
    if regs == [] then topics
    else RegisterAsWritten(AssembleAsWritten(topics, regs[..|regs| - 1]), regs[|regs| - 1])
  }

  /** Lines 194-196 as written: one task per element, until `hl(messages)`
      calls a list and raises TypeError; the tasks started before it remain. */
  function ListenersAsWritten(t: string, callees: seq<Callee>): (r: (seq<Task>, Option<PyError>))
    ensures r.1 == None <==> forall i :: 0 <= i < |callees| ==> callees[i].Callable?
  {
    if callees == [] then ([], None)
    else match callees[0]
      case HandlerList(_) => ([], Some(TypeError))
      case Callable(h) =>
        var rest := ListenersAsWritten(t, callees[1..]);
        assert forall i :: 1 <= i < |callees| ==> callees[i] == callees[1..][i - 1];
        ([Task(t, h, Running)] + rest.0, rest.1)
  }

  /** As written, two data sources declaring the same topic leave a list in
      its handler list, and starting the listeners raises after the first. */
  lemma RepeatedTopicFailsAsWritten(h1: Handler, h2: Handler)
    ensures var registry := AssembleAsWritten(map[], Flatten([[MqttTopic("T", h1)], [MqttTopic("T", h2)]]));
            && registry == map["T" := [Callable(h1), HandlerList([h2])]]
            && ListenersAsWritten("T", registry["T"]) == ([Task("T", h1, Running)], Some(TypeError))
  {
    var regs := [MqttTopic("T", h1), MqttTopic("T", h2)];
    FlattenPair(MqttTopic("T", h1), MqttTopic("T", h2));
    assert regs[..1] == [MqttTopic("T", h1)] && regs[..1][..0] == [];
    assert AssembleAsWritten(map[], regs[..1]) == map["T" := [Callable(h1)]];
    assert AssembleAsWritten(map[], regs) == RegisterAsWritten(map["T" := [Callable(h1)]], MqttTopic("T", h2));
    assert [Callable(h1)] + [HandlerList([h2])] == [Callable(h1), HandlerList([h2])];
    var callees := [Callable(h1), HandlerList([h2])];
    assert callees[1..] == [HandlerList([h2])];
    assert ListenersAsWritten("T", callees[1..]) == ([], Some(TypeError));
    assert ListenersAsWritten("T", callees) == ([Task("T", h1, Running)] + [], Some(TypeError));
    assert [Task("T", h1, Running)] + [] == [Task("T", h1, Running)];
  }

  /** With the handler appended, two data sources declaring the same topic
      yield one registry entry and two running listeners over it. */
  lemma RepeatedTopicTwoListeners(h1: Handler, h2: Handler)
    ensures var regs := Flatten([[MqttTopic("T", h1)], [MqttTopic("T", h2)]]);
            && Assemble(map[], regs) == map["T" := [h1, h2]]
            && AssembleOrder([], regs) == ["T"]
            && TaskList(["T"], map["T" := [h1, h2]]) == [Task("T", h1, Running), Task("T", h2, Running)]
  {
    var regs := [MqttTopic("T", h1), MqttTopic("T", h2)];
    FlattenPair(MqttTopic("T", h1), MqttTopic("T", h2));
    assert regs[..1] == [MqttTopic("T", h1)] && regs[..1][..0] == [];
    assert Assemble(map[], regs[..1]) == map["T" := [h1]];
    assert Assemble(map[], regs) == Register(map["T" := [h1]], MqttTopic("T", h2));
    assert [h1] + [h2] == [h1, h2];
    assert AssembleOrder([], regs[..1]) == ["T"];
    assert AssembleOrder([], regs) == RegisterOrder(["T"], MqttTopic("T", h2));
    SingleTopicTasks("T", [h1, h2]);
  }

  // ---------------------------------------------------------------------------
  // Line 165 as written

  /** A callback pushed on the exit stack: how many arguments besides `self`
      it takes, and how many it was pushed with. */
  datatype ExitCallback = ExitCallback(params: nat, args: nat)

  /** `cancel_tasks` takes no argument besides `self` (line 204). */
  const CancelTasksParams: nat := 0

  /** Line 165 pushes `cancel_tasks` together with one argument, `self.tasks`. */
  const TeardownAsWritten := ExitCallback(CancelTasksParams, 1)

  /** `cancel_tasks` pushed with no argument, as its signature asks. */
  const Teardown := ExitCallback(CancelTasksParams, 0)

  /** Leaving `listen` runs the pushed callback. A call with the wrong number
      of arguments raises TypeError before the body runs; otherwise the body
      of `cancel_tasks` runs. */
  function RunTeardown(cb: ExitCallback, tasks: seq<Task>): (r: (seq<Task>, Option<PyError>))
    ensures r.1.None? <==> cb.args == cb.params
    ensures r.1.Some? ==> r.1 == Some(TypeError) && r.0 == tasks
  {
    if cb.args != cb.params then (tasks, Some(TypeError)) else (CancelAll(tasks), None)
  }

  /** As written, leaving `listen` raises TypeError and cancels nothing:
      every task that was running is still running. */
  lemma TeardownFailsAsWritten(tasks: seq<Task>)
    ensures RunTeardown(TeardownAsWritten, tasks) == (tasks, Some(TypeError))
    ensures forall i :: 0 <= i < |tasks| && tasks[i].status == Running ==>
              RunTeardown(TeardownAsWritten, tasks).0[i].status == Running
  {
  }

  /** Pushed without the argument, leaving `listen` raises nothing and no
      task is left running; this is what `CancelTasks` does. */
  lemma TeardownCancelsAll(tasks: seq<Task>)
    ensures RunTeardown(Teardown, tasks).1 == None
    ensures RunTeardown(Teardown, tasks).0 == CancelAll(tasks)
    ensures forall i :: 0 <= i < |tasks| ==> IsDone(RunTeardown(Teardown, tasks).0[i])
  {
  }

  lemma FlattenPair(a: MqttTopic, b: MqttTopic)
    ensures Flatten([[a], [b]]) == [a, b]
  {
    assert [[a]][..0] == [];
    assert Flatten([[a]]) == [a];
    assert [[a], [b]][..1] == [[a]];
  }

  lemma SingleTopicTasks(t: string, hs: seq<Handler>)
    ensures TaskList([t], map[t := hs]) == Listeners(t, hs)
  {
    assert [t][..0] == [];
  }
}
