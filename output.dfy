/**
 * The playback worker of src/output.rs. Each pass of its loop first tries,
 * while nothing is playing and a spool path is known, to open that spool and
 * start a fresh sink on it, and then handles at most one polled command.
 * Paths are modelled by the spool file name they end in (every path is
 * `<temp_dir>/<name>`), and removed spool files are recorded in `removed`.
 */
module Output {
  import opened Common
  import AudioSink

  /** `OutputCommands`. */
  datatype Command = Start(fileName: string) | Volume(level: real) | Play | Pause | Quit

  /** The worker's locals: `volume`, `sink`, `has_started`, `path_option`, and the files it removed. */
  datatype Player = Player(volume: real, sink: AudioSink.Sink, hasStarted: bool, path: Option<string>, removed: seq<string>)

  /** One pass of the loop: how this pass's open attempt fares, and the command `try_recv` returned, if any. */
  datatype Poll = Poll(backend: AudioSink.Backend, message: Option<Command>)

  /** src/output.rs:15-18. */
  function Init(): (w: Player)
    ensures w.volume == 1.0 && !w.hasStarted && w.path.None? && w.removed == []
  {
    Player(1.0, AudioSink.FRESH, false, None, [])
  }

  /** Once started, the sink plays exactly the current spool, at the remembered volume. */
  predicate Valid(w: Player) {
    w.hasStarted ==> w.path.Some? && w.sink.queue == [w.path.value] && w.sink.volume == w.volume
  }

  /** src/output.rs:20-34: start playback once the open, the decoder and the new sink all succeed. */
  function TryStart(w: Player, b: AudioSink.Backend): (r: Player)
    ensures r.hasStarted <==> w.hasStarted || (w.path.Some? && AudioSink.AllSucceed(b))
    ensures !w.hasStarted && r.hasStarted ==> r.sink == AudioSink.Sink(false, w.volume, [w.path.value])
    ensures !(!w.hasStarted && r.hasStarted) ==> r == w
    ensures r.volume == w.volume && r.path == w.path && r.removed == w.removed
    ensures Valid(w) ==> Valid(r)
  {
    if !w.hasStarted && w.path.Some? && AudioSink.AllSucceed(b) then
      var sink := AudioSink.Play(AudioSink.Append(AudioSink.SetVolume(AudioSink.FRESH, w.volume), w.path.value));
      w.(sink := sink, hasStarted := true)
    else
      w
  }

  /** src/output.rs:35-67: one command; the flag says whether the loop ends. */
  function Handle(w: Player, c: Command): (r: (Player, bool))
    ensures r.1 <==> c.Quit?
    ensures Valid(w) ==> Valid(r.0)
    // before playback has started only Start and Quit have any effect
    ensures !w.hasStarted && !c.Start? ==> r.0 == w
    ensures c.Start? ==> !r.0.hasStarted && r.0.path == Some(c.fileName) && r.0.sink.queue == [] && r.0.volume == w.volume
    // the previous spool is removed only when the new path differs from it
    ensures c.Start? ==> r.0.removed == w.removed + if w.path.Some? && w.path.value != c.fileName then [w.path.value] else []
    ensures !c.Start? ==> r.0.hasStarted == w.hasStarted && r.0.path == w.path && r.0.removed == w.removed
    ensures c.Volume? && w.hasStarted && Valid(w) ==> r.0.volume == c.level && r.0.sink.volume == c.level
    ensures c.Play? && w.hasStarted ==> !r.0.sink.paused
    ensures c.Pause? && w.hasStarted ==> r.0.sink.paused
    ensures !c.Volume? ==> r.0.volume == w.volume
  {
    match c
    case Start(fileName) =>
      var removed := if w.path.Some? && w.path.value != fileName then w.removed + [w.path.value] else w.removed;
      (w.(sink := AudioSink.Stop(w.sink), hasStarted := false, path := Some(fileName), removed := removed), false)
    case Volume(level) =>
      if w.hasStarted && level != w.sink.volume then
        (w.(volume := level, sink := AudioSink.SetVolume(w.sink, level)), false)
      else
        (w, false)
    case Play =>
      if w.hasStarted then (w.(sink := AudioSink.Play(w.sink)), false) else (w, false)
    case Pause =>
      if w.hasStarted then (w.(sink := AudioSink.Pause(w.sink)), false) else (w, false)
    case Quit =>
      (w, true)
  }

  /** One pass of the loop (src/output.rs:19-68). */
  function Iterate(w: Player, p: Poll): (r: (Player, bool))
    ensures r.1 <==> p.message == Some(Quit)
    ensures Valid(w) ==> Valid(r.0)
  {
    var started := TryStart(w, p.backend);
    match p.message
    case None => (started, false)
    case Some(c) => Handle(started, c)
  }

  /** Passes in order until one handles Quit; the flag says whether that happened. */
  function Run(w: Player, polls: seq<Poll>): (r: (Player, bool))
    decreases |polls|
    ensures Valid(w) ==> Valid(r.0)
    ensures r.1 <==> exists i :: 0 <= i < |polls| && polls[i].message == Some(Quit)
  {
    if polls == [] then (w, false)
    else
      var (next, quit) := Iterate(w, polls[0]);
      if quit then (next, true) else Run(next, polls[1..])
  }

  /** Nothing after the Quit is handled. */
  lemma {:induction false} QuitIgnoresRest(w: Player, polls: seq<Poll>, rest: seq<Poll>)
    requires Run(w, polls).1
    ensures Run(w, polls + rest) == Run(w, polls)
    decreases |polls|
  {
    assert (polls + rest)[0] == polls[0];
    if !Iterate(w, polls[0]).1 {
      assert (polls + rest)[1..] == polls[1..] + rest;
      QuitIgnoresRest(Iterate(w, polls[0]).0, polls[1..], rest);
    }
  }

  /** The loop stops at the first Quit: the run equals the run of the passes up to and including it. */
  lemma StopsAtQuit(w: Player, polls: seq<Poll>, i: nat)
    requires i < |polls| && polls[i].message == Some(Quit)
    ensures Run(w, polls).1
    ensures Run(w, polls) == Run(w, polls[..i + 1])
  {
    assert polls[..i + 1][i] == polls[i];
    QuitIgnoresRest(w, polls[..i + 1], polls[i + 1..]);
    assert polls[..i + 1] + polls[i + 1..] == polls;
  }

  predicate Quiet(polls: seq<Poll>) {
    forall i :: 0 <= i < |polls| ==> polls[i].message.None?
  }

  /**
   * With a path set and no commands arriving, the worker keeps retrying and
   * is playing at the end exactly when some pass's open, decode and sink
   * creation all succeeded.
   */
  lemma {:induction false} RetriesUntilStarted(w: Player, polls: seq<Poll>)
    requires w.path.Some? && !w.hasStarted && Quiet(polls)
    ensures Run(w, polls).0.hasStarted <==> exists i :: 0 <= i < |polls| && AudioSink.AllSucceed(polls[i].backend)
    ensures !Run(w, polls).1
    decreases |polls|
  {
    if polls != [] {
      var next := Iterate(w, polls[0]).0;
      if next.hasStarted {
        QuietKeepsPlaying(next, polls[1..]);
      } else {
        RetriesUntilStarted(next, polls[1..]);
        assert forall i :: 0 < i < |polls| ==> polls[i] == polls[1..][i - 1];
      }
    }
  }

  /** Once playing, passes without commands leave the worker as it is. */
  lemma {:induction false} QuietKeepsPlaying(w: Player, polls: seq<Poll>)
    requires w.hasStarted && Quiet(polls)
    ensures Run(w, polls) == (w, false)
    decreases |polls|
  {
    if polls != [] {
      QuietKeepsPlaying(w, polls[1..]);
    }
  }

  /**
   * After a Start and a later pass whose open succeeds, the new sink plays the
   * new spool at the volume remembered from before the Start.
   */
  lemma StartThenOpen(w: Player, f: string, b1: AudioSink.Backend, b2: AudioSink.Backend)
    requires AudioSink.AllSucceed(b2)
    ensures var (mid, _) := Iterate(w, Poll(b1, Some(Start(f))));
            var (r, quit) := Iterate(mid, Poll(b2, None));
            !quit && r.hasStarted && r.path == Some(f) && r.sink == AudioSink.Sink(false, w.volume, [f])
  {
  }

  /** A Volume polled before playback starts is lost: the later sink gets the old volume. */
  lemma EarlyVolumeForgotten(w: Player, v: real, b1: AudioSink.Backend, b2: AudioSink.Backend)
    requires !w.hasStarted && w.path.Some? && !AudioSink.AllSucceed(b1) && AudioSink.AllSucceed(b2)
    ensures var (mid, _) := Iterate(w, Poll(b1, Some(Volume(v))));
            var (r, _) := Iterate(mid, Poll(b2, None));
            r.hasStarted && r.volume == w.volume && r.sink.volume == w.volume
  {
  }

  /** The worker thread's state, updated in place by the loop of src/output.rs. */
  class Worker {
    var volume: real
    var sink: AudioSink.Sink
    var hasStarted: bool
    var pathOption: Option<string>
    var removed: seq<string>

    function State(): Player
      reads this
    {
      Player(volume, sink, hasStarted, pathOption, removed)
    }

    constructor ()
      ensures State() == Init()
    {
      volume := 1.0;
      sink := AudioSink.FRESH;
      hasStarted := false;
      pathOption := None;
      removed := [];
    }

    method TryStartPlayback(b: AudioSink.Backend)
      modifies this
      ensures State() == TryStart(old(State()), b)
    {
      if !hasStarted && pathOption.Some? {
        if b.opens && b.decodes && b.sinkCreated {
          sink := AudioSink.FRESH;
          sink := AudioSink.SetVolume(sink, volume);
          sink := AudioSink.Append(sink, pathOption.value);
          sink := AudioSink.Play(sink);
          hasStarted := true;
        }
      }
    }

    method HandleCommand(c: Command) returns (quit: bool)
      modifies this
      ensures (State(), quit) == Handle(old(State()), c)
    {
      quit := false;
      match c
      case Start(fileName) =>
        sink := AudioSink.Stop(sink);
        hasStarted := false;
        if pathOption.Some? && pathOption.value != fileName {
          removed := removed + [pathOption.value];
        }
        pathOption := Some(fileName);
      case Volume(level) =>
        if hasStarted && level != sink.volume {
          volume := level;
          sink := AudioSink.SetVolume(sink, volume);
        }
      case Play =>
        if hasStarted {
          sink := AudioSink.Play(sink);
        }
      case Pause =>
        if hasStarted {
          sink := AudioSink.Pause(sink);
        }
      case Quit =>
        quit := true;
    }

    method Tick(p: Poll) returns (quit: bool)
      modifies this
      ensures (State(), quit) == Iterate(old(State()), p)
    {
      TryStartPlayback(p.backend);
      quit := false;
      if p.message.Some? {
        quit := HandleCommand(p.message.value);
      }
    }

    /** The loop of src/output.rs:19-69 over the given passes; true when it ended on Quit. */
    method Serve(polls: seq<Poll>) returns (quit: bool)
      modifies this
      ensures (State(), quit) == Run(old(State()), polls)
    {
      quit := false;
      var i := 0;
      while i < |polls| && !quit
        invariant 0 <= i <= |polls|
        invariant quit ==> (State(), true) == Run(old(State()), polls)
        invariant !quit ==> Run(State(), polls[i..]) == Run(old(State()), polls)
      {
        assert polls[i..][1..] == polls[i + 1..];
        quit := Tick(polls[i]);
        i := i + 1;
      }
    }
  }
}
