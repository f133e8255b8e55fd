/** How provider configs travel from PCReconciler through the update channel into
    the cache of SPReconciler. */
module ConfigPropagation {
  import opened Common

  /** What the reconcilers use of a ProviderConfig. */
  datatype Config = Config(name: string, pollInterval: int, defaultVersion: string)

  /** The ProviderConfig as the platform API server stores it. */
  datatype Stored = Nothing | Stored(c: Config, deleting: bool)

  function Live(s: Stored): Option<Config> {
    if s.Nothing? || s.deleting then None else Some(s.c)
  }

  /** The event that a read of the stored config leads to; a failed read looks like
      a missing config. */
  function Observation(ok: bool, s: Stored): Option<Config> { if ok then Live(s) else None }

  // ---------------------------------------------------------------- the link as a value

  type Events = seq<Option<Config>>

  /** `pending` is an event read but not yet sent; `queue` is the channel, a
      blocked send included, oldest first; `read` is what was stored at the last
      read, and `failed` says whether that read failed. */
  datatype Link = Link(
    stored: Stored, read: Stored, failed: bool,
    observed: Events, pending: Events, queue: Events, delivered: Events, cache: Option<Config>)

  datatype Op = Write(s: Stored) | Read(ok: bool) | Send | Receive

  predicate Enabled(l: Link, op: Op) {
    match op
    case Write(_) => true
    case Read(_) => l.pending == []        // one read at a time: passes for one config are serialised
    case Send => l.pending != []
    case Receive => l.queue != []
  }

  function Do(l: Link, op: Op): Link
    requires Enabled(l, op)
  {
    match op
    case Write(s) => l.(stored := s)
    case Read(ok) =>
      l.(read := l.stored, failed := !ok,
         observed := l.observed + [Observation(ok, l.stored)], pending := [Observation(ok, l.stored)])
    case Send => l.(pending := [], queue := l.queue + l.pending)
    case Receive => l.(queue := l.queue[1..], delivered := l.delivered + [l.queue[0]], cache := l.queue[0])
  }

  predicate AllEnabled(l: Link, ops: seq<Op>)
    decreases |ops|
  {
    ops == [] || (Enabled(l, ops[0]) && AllEnabled(Do(l, ops[0]), ops[1..]))
  }

  function DoAll(l: Link, ops: seq<Op>): Link
    requires AllEnabled(l, ops)
    decreases |ops|
  {
    if ops == [] then l else DoAll(Do(l, ops[0]), ops[1..])
  }

  /** Nothing is lost, duplicated or reordered, the cache is what was delivered
      last, and the last observation is that of the last read. */
  predicate Faithful(l: Link) {
    && l.delivered + l.queue + l.pending == l.observed
    && (l.delivered != [] ==> l.cache == l.delivered[|l.delivered| - 1])
    && (l.observed != [] ==> l.observed[|l.observed| - 1] == Observation(!l.failed, l.read))
  }

  /** Before the first read. */
  function Start(stored: Stored, cache: Option<Config>): Link { Link(stored, stored, false, [], [], [], [], cache) }

  lemma ReadKeeps(l: Link, ok: bool)
    requires Faithful(l) && Enabled(l, Read(ok))
    ensures Faithful(Do(l, Read(ok)))
  {
    var o := [Observation(ok, l.stored)];
    assert l.delivered + l.queue + l.pending == l.delivered + l.queue;
    assert l.delivered + l.queue + o == l.observed + o;
  }

  lemma SendKeeps(l: Link)
    requires Faithful(l) && Enabled(l, Send)
    ensures Faithful(Do(l, Send))
  {
    var m := Do(l, Send);
    assert m.delivered + m.queue + m.pending == l.delivered + (l.queue + l.pending);
    assert l.delivered + (l.queue + l.pending) == l.delivered + l.queue + l.pending;
  }

  lemma ReceiveKeeps(l: Link)
    requires Faithful(l) && Enabled(l, Receive)
    ensures Faithful(Do(l, Receive))
  {
    var first, rest := l.queue[0], l.queue[1..];
    assert l.queue == [first] + rest;
    assert (l.delivered + [first]) + rest == l.delivered + l.queue;
  }

  lemma OneOpKeeps(l: Link, op: Op)
    requires Faithful(l) && Enabled(l, op)
    ensures Faithful(Do(l, op))
  {
    match op
    case Write(_) =>
    case Read(ok) => ReadKeeps(l, ok);
    case Send => SendKeeps(l);
    case Receive => ReceiveKeeps(l);
  }

  lemma {:induction false} LinkStaysFaithful(l: Link, ops: seq<Op>)
    requires Faithful(l) && AllEnabled(l, ops)
    ensures Faithful(DoAll(l, ops))
    decreases |ops|
  {
    if ops != [] {
      OneOpKeeps(l, ops[0]);
      LinkStaysFaithful(Do(l, ops[0]), ops[1..]);
    }
  }

  /** Nothing is on its way. */
  predicate Quiet(l: Link) { l.queue == [] == l.pending && l.observed != [] }

  lemma QuietCacheIsObserved(l: Link)
    requires Faithful(l) && Quiet(l)
    ensures l.cache == l.observed[|l.observed| - 1]
  {
    assert l.delivered + l.queue + l.pending == l.delivered;
  }

  /** In every interleaving the events delivered so far, then those queued, then
      the one in hand are exactly the observations in order.  With nothing on its
      way the cache therefore shows the latest one. */
  lemma CacheFollowsObservations(stored: Stored, cache: Option<Config>, ops: seq<Op>)
    requires AllEnabled(Start(stored, cache), ops)
    ensures var l := DoAll(Start(stored, cache), ops);
            && l.delivered + l.queue + l.pending == l.observed
            && (Quiet(l) ==> l.cache == l.observed[|l.observed| - 1])
  {
    LinkStaysFaithful(Start(stored, cache), ops);
    var l := DoAll(Start(stored, cache), ops);
    if Quiet(l) { QuietCacheIsObserved(l); }
  }

  /** In every interleaving of edits, reads, sends and receives: with nothing on its
      way, the cache is the config that was stored at the last read if and only if
      that read did not fail or there was no live config to read.  It holds a config
      exactly if that read found it and it was not being deleted. */
  lemma CacheIsRight(stored: Stored, cache: Option<Config>, ops: seq<Op>)
    requires AllEnabled(Start(stored, cache), ops) && Quiet(DoAll(Start(stored, cache), ops))
    ensures var l := DoAll(Start(stored, cache), ops);
            && (l.cache == Live(l.read) <==> !l.failed || Live(l.read).None?)
            && forall c :: l.cache == Some(c) <==> !l.failed && l.read == Stored(c, false)
  {
    LinkStaysFaithful(Start(stored, cache), ops);
    QuietCacheIsObserved(DoAll(Start(stored, cache), ops));
  }

  /** One failed read takes a config out of the cache that is stored all the time. */
  lemma FailedReadClearsCache(c: Config)
    ensures var start, ops := Start(Stored(c, false), Some(c)), [Read(false), Send, Receive];
            && AllEnabled(start, ops) && var l := DoAll(start, ops);
            && Quiet(l) && l.stored == l.read == Stored(c, false) && l.cache == None
  {
    var l0 := Start(Stored(c, false), Some(c));
    var l1 := Do(l0, Read(false));
    var l2 := Do(l1, Send);
    assert [Read(false), Send, Receive][1..] == [Send, Receive];
    assert [Send, Receive][1..] == [Receive] && [Receive][1..] == [];
    assert AllEnabled(Do(l2, Receive), []);
    assert AllEnabled(l2, [Receive]) && AllEnabled(l1, [Send, Receive]);
    assert DoAll(l2, [Receive]) == Do(l2, Receive);
  }

  // ---------------------------------------------------------------- the code

  /** What reading the config gave. */
  datatype Answer = NotFound | ReadError | Found(c: Config, deleting: bool)

  /** What listing all service provider objects gave. */
  datatype Listing = ListError | Items(names: seq<string>)

  class Controllers {
    var stored: Stored                   // on the platform API server
    var channel: Events                  // providerUpdateChannel
    var providerConfig: Option<Config>   // SPReconciler's cached pointer
    ghost var link: Link

    ghost predicate Valid()
      reads this
    {
      Faithful(link) && link.stored == stored && link.queue == channel && link.cache == providerConfig
    }

    constructor (stored: Stored)
      ensures Valid() && link == Start(stored, None)
    {
      this.stored, channel, providerConfig := stored, [], None;
      link := Start(stored, None);
    }

    /** The map function: caches the config of one event, then asks for a
        reconcile of every listed object; a failed listing asks for none. */
    method OnProviderUpdate(list: Listing) returns (reqs: seq<string>)
      requires Valid() && channel != []
      modifies this
      ensures Valid() && link == Do(old(link), Receive)
      ensures list.Items? ==> reqs == list.names
      ensures list.ListError? ==> reqs == []
    {
      OneOpKeeps(link, Receive);
      var obj := channel[0];
      channel := channel[1..];
      providerConfig := obj;
      link := Do(link, Receive);
      reqs := [];
      if list.Items? {
        for i := 0 to |list.names|
          invariant reqs == list.names[..i]
        {
          reqs := reqs + [list.names[i]];
        }
      }
    }

    /** Somebody writes or deletes the ProviderConfig. */
    method Edit(s: Stored)
      requires Valid()
      modifies this
      ensures Valid() && link == Do(old(link), Write(s))
    {
      OneOpKeeps(link, Write(s));
      stored := s;
      link := Do(link, Write(s));
    }

    /** Edits and deliveries that happen while a reconcile is between two steps. */
    method Elsewhere()
      requires Valid()
      modifies this
      ensures Valid() && link.pending == old(link).pending && link.observed == old(link).observed
      ensures (link.read, link.failed) == (old(link).read, old(link).failed)
    {
      var steps: nat := *;
      while steps > 0
        invariant Valid() && link.pending == old(link).pending && link.observed == old(link).observed
        invariant (link.read, link.failed) == (old(link).read, old(link).failed)
      {
        var deliver: bool := *;
        if deliver && channel != [] {
          var list: Listing := *;
          var _ := OnProviderUpdate(list);
        } else {
          var s: Stored := *;
          Edit(s);
        }
        steps := steps - 1;
      }
    }

    /** `Get` of the ProviderConfig. */
    method Get() returns (answer: Answer)
      requires Valid() && link.pending == []
      modifies this
      ensures Valid() && link == Do(old(link), Read(!answer.ReadError?))
      ensures answer.Found? ==> old(link).stored == Stored(answer.c, answer.deleting)
      ensures answer.NotFound? ==> old(link).stored.Nothing?
    {
      var ok: bool := *;
      OneOpKeeps(link, Read(ok));
      answer := if !ok then ReadError else if stored.Nothing? then NotFound else Found(stored.c, stored.deleting);
      link := Do(link, Read(ok));
    }

    /** `PCReconciler.Reconcile`: reads the config and sends one event, which is
        empty unless a live config was found.  Only a read that failed for
        another reason than absence is an error; it clears the cache too. */
    method ReconcileProviderConfig() returns (err: bool)
      requires Valid() && link.pending == []
      modifies this
      ensures Valid() && link.pending == [] && link.failed == err
      ensures link.observed == old(link).observed + [Observation(!err, link.read)]
      ensures link.queue != [] && link.queue[|link.queue| - 1] == Observation(!err, link.read)
      ensures forall c :: link.queue[|link.queue| - 1] == Some(c) <==> !err && link.read == Stored(c, false)
    {
      Elsewhere();
      var answer := Get();
      var notify: Option<Config> := None;
      err := answer.ReadError?;
      if answer.Found? && !answer.deleting {
        notify := Some(answer.c);
      }
      Elsewhere();
      SendEvent(notify);
    }

    /** The send on the update channel. */
    method SendEvent(notify: Option<Config>)
      requires Valid() && link.pending == [notify]
      modifies this
      ensures Valid() && link == Do(old(link), Send)
      ensures link.queue != [] && link.queue[|link.queue| - 1] == notify
    {
      OneOpKeeps(link, Send);
      link := Do(link, Send);
      channel := channel + [notify];
    }

    /** Once the channel has been drained, the cache is what the last read made of
        the config it found. */
    method Drain()
      requires Valid() && link.pending == [] && link.observed != []
      modifies this
      ensures Valid() && Quiet(link)
      ensures (link.read, link.failed) == (old(link).read, old(link).failed)
      ensures providerConfig == Observation(!link.failed, link.read)
      ensures forall c :: providerConfig == Some(c) <==> !link.failed && link.read == Stored(c, false)
    {
      while channel != []
        invariant Valid() && link.pending == [] && link.observed == old(link).observed
        invariant (link.read, link.failed) == (old(link).read, old(link).failed)
        decreases |channel|
      {
        var list: Listing := *;
        var _ := OnProviderUpdate(list);
      }
      QuietCacheIsObserved(link);
    }
  }
}
