/**
 * The channel pool: each free channel goes to one task at a time, and tasks
 * that find none free wait in line.
 */
module Channels {
  import opened Basics

  type Task = nat

  /**
   * The pool between two events of the program. `free` is used as a stack,
   * `waiting` as a queue; `held` says which running task has which channel.
   * `arrived` and `served` list, in order, the tasks that ever had to wait and
   * those of them that got a channel.
   */
  datatype Pool<C> = Pool(
    free: seq<C>,
    waiting: seq<Task>,
    held: map<Task, C>,
    arrived: seq<Task>,
    served: seq<Task>)

  /** A task starts, or a running task ends; a thrown task ends like any other. */
  datatype Event = Start(task: Task) | End(task: Task)

  predicate Known<C>(p: Pool<C>, task: Task) {
    task in p.held || task in p.waiting
  }

  function Take<C>(p: Pool<C>, task: Task): Pool<C> {
    if p.free == [] then p.(waiting := p.waiting + [task], arrived := p.arrived + [task])
    else
      var top := |p.free| - 1;
      p.(free := p.free[..top], held := p.held[task := p.free[top]])
  }

  /** The channel goes to the first waiter, or back onto the stack. */
  function GiveBack<C>(p: Pool<C>, task: Task): Pool<C>
    requires task in p.held
  {
    var channel, rest := p.held[task], p.held - {task};
    if p.waiting == [] then p.(free := p.free + [channel], held := rest)
    else
      var next := p.waiting[0];
      p.(waiting := p.waiting[1..], held := rest[next := channel], served := p.served + [next])
  }

  function Step<C>(p: Pool<C>, event: Event): Pool<C> {
    match event
    case Start(task) => if Known(p, task) then p else Take(p, task)
    case End(task) => if task in p.held then GiveBack(p, task) else p
  }

  /** Every interleaving: any finite sequence of starts and ends. */
  function Run<C>(channels: seq<C>, events: seq<Event>): Pool<C> {
    if events == [] then Pool(channels, [], map[], [], [])
    else Step(Run(channels, events[..|events| - 1]), events[|events| - 1])
  }

  ghost predicate Covers<C(!new)>(free: seq<C>, held: map<Task, C>, channels: seq<C>) {
    forall c: C :: c in channels ==> c in free || c in held.Values
  }

  /** No channel is lost, duplicated or in two hands. */
  ghost predicate Sound<C(!new)>(p: Pool<C>, channels: seq<C>) {
    && Distinct(p.free) && Distinct(p.waiting)
    && (forall t: Task :: t in p.held ==> p.held[t] in channels && p.held[t] !in p.free && t !in p.waiting)
    && (forall t: Task, u: Task :: t in p.held && u in p.held && p.held[t] == p.held[u] ==> t == u)
    && (forall c: C :: c in p.free ==> c in channels)
    && Covers(p.free, p.held, channels)
    && (p.waiting != [] ==> p.free == [])
    && p.arrived == p.served + p.waiting
  }

  lemma TakeKeepsSound<C(!new)>(p: Pool<C>, channels: seq<C>, task: Task)
    requires Sound(p, channels) && !Known(p, task)
    ensures Sound(Take(p, task), channels)
  {
    if p.free != [] {
      var top := |p.free| - 1;
      var p' := Take(p, task);
      assert p.free == p'.free + [p.free[top]];
      forall c: C | c in channels
        ensures c in p'.free || c in p'.held.Values
      {
        if c !in p.free {
          var t: Task :| t in p.held && p.held[t] == c;
          assert t in p'.held && p'.held[t] == c;
        } else if c !in p'.free {
          assert task in p'.held && p'.held[task] == c;
        }
      }
    }
  }

  lemma FreedKeepsSound<C(!new)>(p: Pool<C>, channels: seq<C>, task: Task)
    requires Sound(p, channels) && task in p.held && p.waiting == []
    ensures Sound(GiveBack(p, task), channels)
  {
    var p', channel := GiveBack(p, task), p.held[task];
    forall c: C | c in channels
      ensures c in p'.free || c in p'.held.Values
    {
      if c !in p.free && c != channel {
        var t: Task :| t in p.held && p.held[t] == c;
        assert t in p'.held && p'.held[t] == c;
      }
    }
  }

  lemma HandedKeepsSound<C(!new)>(p: Pool<C>, channels: seq<C>, task: Task)
    requires Sound(p, channels) && task in p.held && p.waiting != []
    ensures Sound(GiveBack(p, task), channels)
  {
    HandedCovers(p, channels, task);
    hide Covers;
    var p', next := GiveBack(p, task), p.waiting[0];
    assert p.waiting == [next] + p'.waiting;
    assert Distinct(p'.waiting) && next !in p'.waiting by { DistinctRest(p.waiting); }
    hide Distinct;
  }

  lemma DistinctRest<T>(xs: seq<T>)
    requires Distinct(xs) && xs != []
    ensures Distinct(xs[1..]) && xs[0] !in xs[1..]
  {
  }

  lemma HandedCovers<C(!new)>(p: Pool<C>, channels: seq<C>, task: Task)
    requires Sound(p, channels) && task in p.held && p.waiting != []
    ensures var p' := GiveBack(p, task); Covers(p'.free, p'.held, channels)
  {
    hide Distinct;
    var p', channel, next := GiveBack(p, task), p.held[task], p.waiting[0];
    assert next in p'.held && p'.held[next] == channel;
    forall c: C | c in channels
      ensures c in p'.free || c in p'.held.Values
    {
      if c !in p.free && c != channel {
        var t: Task :| t in p.held && p.held[t] == c;
        assert t in p'.held && p'.held[t] == c;
      }
    }
  }

  lemma GiveBackKeepsSound<C(!new)>(p: Pool<C>, channels: seq<C>, task: Task)
    requires Sound(p, channels) && task in p.held
    ensures Sound(GiveBack(p, task), channels)
  {
    hide Sound;
    if p.waiting == [] {
      FreedKeepsSound(p, channels, task);
    } else {
      HandedKeepsSound(p, channels, task);
    }
  }

  /** In every interleaving each channel is free or held by exactly one task, and nobody waits beside a free channel. */
  lemma {:induction false} EveryInterleavingIsSound<C(!new)>(channels: seq<C>, events: seq<Event>)
    requires Distinct(channels)
    ensures Sound(Run(channels, events), channels)
  {
    hide Sound, Take, GiveBack;
    if events == [] {
      StartIsSound(channels);
    } else {
      var before, e := Run(channels, events[..|events| - 1]), events[|events| - 1];
      EveryInterleavingIsSound(channels, events[..|events| - 1]);
      match e
      case Start(task) => if !Known(before, task) { TakeKeepsSound(before, channels, task); }
      case End(task) => if task in before.held { GiveBackKeepsSound(before, channels, task); }
    }
  }

  lemma StartIsSound<C(!new)>(channels: seq<C>)
    requires Distinct(channels)
    ensures Sound(Pool(channels, [], map[], [], []), channels)
  {
  }

  /** Served and arrived only grow, so the k-th waiter to arrive is the k-th to be served. */
  lemma FirstComeFirstServed<C(!new)>(channels: seq<C>, events: seq<Event>, k: nat)
    requires Distinct(channels) && k < |Run(channels, events).served|
    ensures var p := Run(channels, events); k < |p.arrived| && p.served[k] == p.arrived[k]
  {
    EveryInterleavingIsSound(channels, events);
    hide Run;
  }

  /** A task that ends hands over its own channel, to the task that has waited longest. */
  lemma LongestWaiterIsNext<C(!new)>(channels: seq<C>, events: seq<Event>, task: Task)
    requires Distinct(channels) && task in Run(channels, events).held && Run(channels, events).waiting != []
    ensures var p, p' := Run(channels, events), Run(channels, events + [End(task)]);
            && p.waiting[0] in p'.held && p'.held[p.waiting[0]] == p.held[task]
            && |p.served| < |p.arrived| && p.waiting[0] == p.arrived[|p.served|]
            && p'.waiting == p.waiting[1..] && p'.free == []
  {
    EveryInterleavingIsSound(channels, events);
    assert (events + [End(task)])[..|events + [End(task)]| - 1] == events;
    hide Sound;
    SoundQueue(Run(channels, events), channels);
  }

  lemma SoundQueue<C(!new)>(p: Pool<C>, channels: seq<C>)
    requires Sound(p, channels)
    ensures p.arrived == p.served + p.waiting && (p.waiting != [] ==> p.free == [])
  {
  }

  // ------------------------------------------------------------------ the object

  /** The pool object. A promise is its task; resolving it gives the task the channel. */
  class ChannelPool<C(!new,==)> {
    var free: seq<C>
    var waiting: seq<Task>
    const size: nat
    ghost const channels: seq<C>
    ghost var pool: Pool<C>

    /** The fields are the pool's, and the pool is sound. */
    ghost predicate Valid()
      reads this
    {
      free == pool.free && waiting == pool.waiting && size == |channels| && Sound(pool, channels)
    }

    constructor (channels: seq<C>)
      requires channels != [] && Distinct(channels)
      ensures Valid() && pool == Run(channels, []) && this.channels == channels
    {
      free, waiting, size := channels, [], |channels|;
      this.channels := channels;
      pool := Pool(channels, [], map[], [], []);
      StartIsSound(channels);
    }

    /** Pops a free channel, or joins the queue and gets none yet. */
    method Acquire(task: Task) returns (channel: Option<C>)
      requires Valid() && !Known(pool, task)
      modifies this
      ensures Valid() && pool == Step(old(pool), Start(task))
      ensures channel == if task in pool.held then Some(pool.held[task]) else None
    {
      TakeKeepsSound(pool, channels, task);
      pool := Take(pool, task);
      hide Sound;
      if free != [] {
        channel := Some(free[|free| - 1]);
        free := free[..|free| - 1];
      } else {
        waiting := waiting + [task];
        channel := None;
      }
    }

    /** Hands the channel to the first waiter, whose task then runs, or frees it. */
    method Release(task: Task, channel: C) returns (next: Option<Task>)
      requires Valid() && task in pool.held && pool.held[task] == channel
      modifies this
      ensures Valid() && pool == Step(old(pool), End(task))
      ensures next.Some? ==> next.value in pool.held && pool.held[next.value] == channel
      ensures next.None? ==> channel in free
    {
      GiveBackKeepsSound(pool, channels, task);
      pool := GiveBack(pool, task);
      hide Sound;
      if waiting != [] {
        next := Some(waiting[0]);
        waiting := waiting[1..];
      } else {
        free := free + [channel];
        next := None;
      }
    }
  }
}
