/**
 * The older playback worker that `start_ratio` spawns (src/main.rs:144-197)
 * and the commands it receives (`SinkCommands`, src/main.rs:21-26). Unlike
 * the worker of src/output.rs it replaces its sink and opens the spool
 * directly when a Start arrives, and Play and Pause act unconditionally.
 */
module SinkWorker {
  import opened Common
  import AudioSink

  /** `SinkCommands`: Start carries a station's spool name and its url. */
  datatype SinkCommand = Start(name: string, url: string) | Play | Pause | Quit

  /** The worker's locals `sink` and `path`, and the spool files it removed. */
  datatype Legacy = Legacy(sink: AudioSink.Sink, path: Option<string>, removed: seq<string>)

  /** One pass: how a Start's foreign calls fare, and the command polled, if any. */
  datatype Poll = Poll(backend: AudioSink.Backend, message: Option<SinkCommand>)

  /** src/main.rs:146-147. */
  function Init(): Legacy {
    Legacy(AudioSink.FRESH, None, [])
  }

  /** src/main.rs:153-184. */
  function StartPlayback(w: Legacy, name: string, b: AudioSink.Backend): (r: Legacy)
    // the spool is queued only when open, decode and sink creation all succeed
    ensures r.sink.queue == if AudioSink.AllSucceed(b) then [name] else []
    // a new sink replaces the old one, unpaused at full volume, and the previous spool is removed
    ensures b.sinkCreated ==> !r.sink.paused && r.sink.volume == 1.0
    ensures b.sinkCreated ==> r.removed == w.removed + (if w.path.Some? then [w.path.value] else [])
    ensures b.sinkCreated ==> r.path == if b.opens then Some(name) else None
    // without a new sink the old one is kept, stopped
    ensures !b.sinkCreated ==> r == w.(sink := w.sink.(queue := []))
  {
    var stopped := AudioSink.Stop(w.sink);
    if !b.sinkCreated then w.(sink := stopped)
    else
      var removed := if w.path.Some? then w.removed + [w.path.value] else w.removed;
      if !b.opens then Legacy(AudioSink.FRESH, None, removed)
      else if !b.decodes then Legacy(AudioSink.FRESH, Some(name), removed)
      else Legacy(AudioSink.Append(AudioSink.Play(AudioSink.FRESH), name), Some(name), removed)
  }

  /** src/main.rs:151-195: one pass of the loop; the flag says whether it ends. */
  function Handle(w: Legacy, p: Poll): (r: (Legacy, bool))
    ensures r.1 <==> p.message == Some(Quit)
    // the previous spool is removed whenever a new sink was created, even when it is the same file
    ensures p.message.Some? && p.message.value.Start? && p.backend.sinkCreated ==>
              r.0.removed == w.removed + (if w.path.Some? then [w.path.value] else [])
    // the path is recorded only once the spool opened
    ensures p.message.Some? && p.message.value.Start? && p.backend.sinkCreated ==>
              r.0.path == if p.backend.opens then Some(p.message.value.name) else None
    // something is queued only when open, decode and sink creation all succeeded
    ensures p.message.Some? && p.message.value.Start? ==>
              r.0.sink.queue == if AudioSink.AllSucceed(p.backend) then [p.message.value.name] else []
    // without a new sink the old one is kept, stopped, and nothing else changes
    ensures p.message.Some? && p.message.value.Start? && !p.backend.sinkCreated ==>
              r.0 == w.(sink := w.sink.(queue := []))
    ensures p.message == Some(Play) ==> r.0 == w.(sink := w.sink.(paused := false))
    ensures p.message == Some(Pause) ==> r.0 == w.(sink := w.sink.(paused := true))
    ensures p.message.None? || p.message == Some(Quit) ==> r.0 == w
  {
    match p.message
    case None => (w, false)
    case Some(c) =>
      match c
      case Start(name, _) => (StartPlayback(w, name, p.backend), false)
      case Play => (w.(sink := AudioSink.Play(w.sink)), false)
      case Pause => (w.(sink := AudioSink.Pause(w.sink)), false)
      case Quit => (w, true)
  }

  /** Passes in order until one handles Quit. */
  function Run(w: Legacy, polls: seq<Poll>): (r: (Legacy, bool))
    decreases |polls|
    ensures r.1 <==> exists i :: 0 <= i < |polls| && polls[i].message == Some(Quit)
  {
    if polls == [] then (w, false)
    else
      var (next, quit) := Handle(w, polls[0]);
      if quit then (next, true) else Run(next, polls[1..])
  }

  /** Pass `p` is a Start of spool `s` whose open, decode and sink creation all succeeded. */
  predicate StartedBy(p: Poll, s: string) {
    p.message.Some? && p.message.value.Start? && p.message.value.name == s && AudioSink.AllSucceed(p.backend)
  }

  /**
   * Whatever the worker is playing at the end of a run was queued by a Start
   * of that run whose foreign calls all succeeded, and it is a single spool
   * (for a worker that starts with nothing queued).
   */
  lemma QueueFromStart(w: Legacy, polls: seq<Poll>)
    requires w.sink.queue == []
    ensures |Run(w, polls).0.sink.queue| <= 1
    ensures forall s :: s in Run(w, polls).0.sink.queue ==> exists i :: 0 <= i < |polls| && StartedBy(polls[i], s)
  {
    QueueFromStartFrom(w, polls, 0);
  }

  lemma {:induction false} QueueFromStartFrom(w: Legacy, all: seq<Poll>, k: nat)
    requires k <= |all|
    requires |w.sink.queue| <= 1
    requires forall s :: s in w.sink.queue ==> exists i :: 0 <= i < k && StartedBy(all[i], s)
    ensures |Run(w, all[k..]).0.sink.queue| <= 1
    ensures forall s :: s in Run(w, all[k..]).0.sink.queue ==> exists i :: 0 <= i < |all| && StartedBy(all[i], s)
    decreases |all| - k
  {
    if k < |all| {
      var (next, quit) := Handle(w, all[k]);
      assert all[k..][0] == all[k];
      if !quit {
        assert all[k..][1..] == all[k + 1..];
        forall s | s in next.sink.queue
          ensures exists i :: 0 <= i < k + 1 && StartedBy(all[i], s)
        {
          if !(all[k].message.Some? && all[k].message.value.Start?) {
            var i :| 0 <= i < k && StartedBy(all[i], s);
          } else {
            assert StartedBy(all[k], s);
          }
        }
        QueueFromStartFrom(next, all, k + 1);
      }
    }
  }

  /** The worker thread's `sink` and `path`, updated in place by the loop of src/main.rs:150-196. */
  class LegacyWorker {
    var sink: AudioSink.Sink
    var path: Option<string>
    var removed: seq<string>

    function State(): Legacy
      reads this
    {
      Legacy(sink, path, removed)
    }

    constructor ()
      ensures State() == Init()
    {
      sink := AudioSink.FRESH;
      path := None;
      removed := [];
    }

    method Tick(p: Poll) returns (quit: bool)
      modifies this
      ensures (State(), quit) == Handle(old(State()), p)
    {
      quit := false;
      if p.message.None? {
        return;
      }
      match p.message.value
      case Start(name, _) =>
        sink := AudioSink.Stop(sink);
        if !p.backend.sinkCreated {
          return;
        }
        sink := AudioSink.FRESH;
        if path.Some? {
          removed := removed + [path.value];
        }
        path := None;
        if !p.backend.opens {
          return;
        }
        path := Some(name);
        if !p.backend.decodes {
          return;
        }
        sink := AudioSink.Play(sink);
        sink := AudioSink.Append(sink, name);
      case Play =>
        sink := AudioSink.Play(sink);
      case Pause =>
        sink := AudioSink.Pause(sink);
      case Quit =>
        quit := true;
    }

    method Serve(polls: seq<Poll>) returns (quit: bool)
      modifies this
      ensures (State(), quit) == Run(old(State()), polls)
    {
      quit := false;
      var i := 0;
      while i < |polls| && !quit
        invariant 0 <= i <= |polls|
        invariant quit ==> (State(), true) == Run(old(State()), polls)
        invariant !quit ==> Run(State(), polls[i..]) == Run(old(State()), polls)
      {
        assert polls[i..][1..] == polls[i + 1..];
        quit := Tick(polls[i]);
        i := i + 1;
      }
    }
  }
}
