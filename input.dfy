/**
 * The ingest task of src/input.rs. It connects to the station, rejects the
 * response unless its `content-type` is `audio/mpeg`, reads the metadata
 * interval from `icy-metaint`, truncates the station's spool file and feeds
 * every chunk of the body through the ICY demuxer. After each chunk the
 * priming countdown runs; on the twenty-first chunk it tells the playback
 * worker to start on the spool. When the body ends it reconnects.
 *
 * The network is a finite list of connection attempts, each either a failed
 * connect or a response given by its two headers and its chunks. Whether
 * the playback worker's channel receives is one flag, fixed for the whole
 * ingest task, and the published title starts from a given value.
 */
module Input {
  import opened Common
  import Station
  import Headers
  import Priming
  import IcyDemux
  import Output

  /** src/input.rs:5. */
  const CHUNKS_BEFORE_START: nat := 20

  datatype Attempt =
    | ConnectFailed
    | Response(contentType: Option<string>, icyMetaint: Option<string>, chunks: seq<seq<byte>>)

  /** The spool key, whether the playback worker's channel receives (for the whole ingest task), and the error title. */
  datatype Env = Env(key: string, downstreamOpen: bool, errorTitle: string)

  /**
   * The ingest task's state between connections: the priming latch, the commands
   * delivered to the playback worker, the published title, the spool file
   * (None until it is first created) and whether the ingest task still runs.
   */
  datatype Ingest = Ingest(primer: Priming.Primer, sent: seq<Output.Command>, title: string, spool: Option<seq<byte>>, running: bool)

  /** The state within one connection; `failed` once the priming Start could not be delivered. */
  datatype Conn = Conn(primer: Priming.Primer, sent: seq<Output.Command>, demux: IcyDemux.DemuxState, failed: bool)

  /** src/input.rs:8-11. */
  function Begin(title: string): Ingest {
    Ingest(Priming.Primer(CHUNKS_BEFORE_START, true), [], title, None, true)
  }

  /** src/input.rs:18-23, 28-32 and 35-39: Pause the worker if it listens, publish the error title, return. */
  function Fail(env: Env, ing: Ingest): (r: Ingest)
    ensures !r.running && r.title == env.errorTitle && r.spool == ing.spool && r.primer == ing.primer
    // the worker is paused exactly when it still listens
    ensures r.sent == ing.sent || r.sent == ing.sent + [Output.Pause]
    ensures r.sent != ing.sent <==> env.downstreamOpen
  {
    ing.(sent := ing.sent + (if env.downstreamOpen then [Output.Pause] else []), title := env.errorTitle, running := false)
  }

  /** src/input.rs:55-109: one chunk through the demuxer, then the priming countdown. */
  function AfterChunk(env: Env, c: Conn, chunk: seq<byte>): (r: Conn)
    // the whole chunk goes through the demultiplexer before the countdown runs
    ensures r.demux == IcyDemux.Run(c.demux, chunk)
    // Start is delivered exactly when the countdown fires and the worker listens
    ensures r.sent == c.sent || r.sent == c.sent + [Output.Start(env.key)]
    ensures r.sent != c.sent <==> c.primer.shouldRestart && c.primer.countDown == 0 && env.downstreamOpen
    // an undeliverable Start fails the connection and leaves the latch set
    ensures r.failed <==> c.primer.shouldRestart && c.primer.countDown == 0 && !env.downstreamOpen
    ensures r.failed ==> r.primer == c.primer
    ensures !r.failed ==> r.primer == Priming.Tick(c.primer).0
  {
    var demux := IcyDemux.Run(c.demux, chunk);
    var (primer, fire) := Priming.Tick(c.primer);
    if !fire then Conn(primer, c.sent, demux, false)
    else if env.downstreamOpen then Conn(primer, c.sent + [Output.Start(env.key)], demux, false)
    else Conn(c.primer, c.sent, demux, true)
  }

  /** src/input.rs:54-110: the chunks of one response, until they run out or the Start cannot be delivered. */
  function Chunks(env: Env, c: Conn, chunks: seq<seq<byte>>): (r: Conn)
    decreases |chunks|
    ensures c.sent <= r.sent
    // only the demultiplexer writes to the spool, and it writes at most the body
    ensures c.demux.spool <= r.demux.spool && |r.demux.spool| <= |c.demux.spool| + |Flatten(chunks)|
    ensures r.primer.countDown <= c.primer.countDown
  {
    if chunks == [] || c.failed then c else Chunks(env, AfterChunk(env, c, chunks[0]), chunks[1..])
  }

  /** src/input.rs:16-110: one connection attempt. */
  function Connect(env: Env, ing: Ingest, a: Attempt): (r: Ingest)
    // a failed connect or a rejected content type ends the ingest task with the error title and leaves the spool alone
    ensures !(a.Response? && Headers.ContentTypeAccepted(a.contentType)) ==>
              !r.running && r.title == env.errorTitle && r.spool == ing.spool && r.primer == ing.primer
    // an accepted response truncates the spool and fills it with what the demultiplexer writes
    ensures a.Response? && Headers.ContentTypeAccepted(a.contentType) ==>
              r.spool.Some? && |r.spool.value| <= |Flatten(a.chunks)|
    ensures ing.sent <= r.sent
    ensures !r.running ==> r.title == env.errorTitle
    ensures r.primer.countDown <= ing.primer.countDown
  {
    match a
    case ConnectFailed => Fail(env, ing)
    case Response(contentType, icyMetaint, chunks) =>
      if !Headers.ContentTypeAccepted(contentType) then Fail(env, ing)
      else
        var start := IcyDemux.Initial(Headers.MetaInterval(icyMetaint), ing.title);
        var c := Chunks(env, Conn(ing.primer, ing.sent, start, false), chunks);
        Ingest(c.primer, c.sent, if c.failed then env.errorTitle else c.demux.title, Some(c.demux.spool), !c.failed)
  }

  /** src/input.rs:15-111 over the given attempts: reconnect until an error ends the ingest task or the attempts run out. */
  function Attempts(env: Env, ing: Ingest, attempts: seq<Attempt>): (r: Ingest)
    decreases |attempts|
    ensures ing.sent <= r.sent
    ensures !ing.running ==> r == ing
    // a task that stops has published the error title
    ensures ing.running && !r.running ==> r.title == env.errorTitle
    ensures r.primer.countDown <= ing.primer.countDown
  {
    if attempts == [] || !ing.running then ing else Attempts(env, Connect(env, ing, attempts[0]), attempts[1..])
  }

  /** src/input.rs:7-112: the whole ingest task. */
  function Ingestion(name: string, attempts: seq<Attempt>, downstreamOpen: bool, title: string, errorTitle: string): (r: Ingest)
    ensures !r.running ==> r.title == errorTitle
    ensures r.primer.countDown <= CHUNKS_BEFORE_START
  {
    Attempts(Env(Station.Normalize(name), downstreamOpen, errorTitle), Begin(title), attempts)
  }

  /**
   * What has been delivered to the playback worker: nothing until the latch
   * clears, then the one Start, and a Pause only as the ingest task ends.
   */
  predicate Delivered(key: string, sent: seq<Output.Command>, latched: bool, running: bool) {
    var starts := if latched then [] else [Output.Start(key)];
    sent == starts || (!running && sent == starts + [Output.Pause])
  }

  predicate Shaped(key: string, ing: Ingest) {
    Delivered(key, ing.sent, ing.primer.shouldRestart, ing.running)
  }

  /** Chunks of one response keep the delivered commands in step with the latch. */
  lemma {:induction false} ChunksShaped(env: Env, c: Conn, chunks: seq<seq<byte>>)
    requires !c.failed && Delivered(env.key, c.sent, c.primer.shouldRestart, true)
    ensures var r := Chunks(env, c, chunks); Delivered(env.key, r.sent, r.primer.shouldRestart, true)
    ensures Chunks(env, c, chunks).failed ==> Chunks(env, c, chunks).primer.shouldRestart
    decreases |chunks|
  {
    if chunks != [] {
      var next := AfterChunk(env, c, chunks[0]);
      if !next.failed {
        ChunksShaped(env, next, chunks[1..]);
      }
    }
  }

  /** Across reconnects and error paths at most one Start is ever delivered, and a Pause only at the end. */
  lemma {:induction false} AttemptsShaped(env: Env, ing: Ingest, attempts: seq<Attempt>)
    requires Shaped(env.key, ing)
    ensures Shaped(env.key, Attempts(env, ing, attempts))
    decreases |attempts|
  {
    if attempts != [] && ing.running {
      var a := attempts[0];
      if a.Response? && Headers.ContentTypeAccepted(a.contentType) {
        var start := IcyDemux.Initial(Headers.MetaInterval(a.icyMetaint), ing.title);
        ChunksShaped(env, Conn(ing.primer, ing.sent, start, false), a.chunks);
      }
      AttemptsShaped(env, Connect(env, ing, a), attempts[1..]);
    }
  }

  /** The whole ingest task delivers at most one Start, always for the station's spool key. */
  lemma AtMostOneStart(name: string, attempts: seq<Attempt>, downstreamOpen: bool, title: string, errorTitle: string)
    ensures var r := Ingestion(name, attempts, downstreamOpen, title, errorTitle);
            var start := Output.Start(Station.Normalize(name));
            r.sent == [] || r.sent == [start] || (!r.running && (r.sent == [Output.Pause] || r.sent == [start, Output.Pause]))
  {
    AttemptsShaped(Env(Station.Normalize(name), downstreamOpen, errorTitle), Begin(title), attempts);
  }

  /** With a listening worker, a response's chunks are demultiplexed in order and the countdown runs once per chunk. */
  lemma {:induction false} ChunksDelivered(env: Env, c: Conn, chunks: seq<seq<byte>>)
    requires env.downstreamOpen && !c.failed
    ensures var (p, fired) := Priming.Ticks(c.primer, |chunks|);
            Chunks(env, c, chunks) == Conn(p, c.sent + Repeat(Output.Start(env.key), fired), IcyDemux.RunChunks(c.demux, chunks), false)
    decreases |chunks|
  {
    if chunks != [] {
      var next := AfterChunk(env, c, chunks[0]);
      ChunksDelivered(env, next, chunks[1..]);
      var (p1, f1) := Priming.Tick(c.primer);
      var (p, fired) := Priming.Ticks(p1, |chunks| - 1);
      var f := if f1 then 1 else 0;
      assert next.sent == c.sent + Repeat(Output.Start(env.key), f);
      RepeatAdd(Output.Start(env.key), f, fired);
    }
  }

  predicate Accepted(a: Attempt) {
    a.Response? && Headers.ContentTypeAccepted(a.contentType)
  }

  /** The number of chunks the responses among `attempts` deliver. */
  function TotalChunks(attempts: seq<Attempt>): nat
    decreases |attempts|
  {
    if attempts == [] then 0
    else (if attempts[0].Response? then |attempts[0].chunks| else 0) + TotalChunks(attempts[1..])
  }

  /** Accepted responses and a listening worker: the countdown runs over all chunks of all connections together. */
  lemma {:induction false} AttemptsDelivered(env: Env, ing: Ingest, attempts: seq<Attempt>)
    requires env.downstreamOpen && ing.running
    requires forall i :: 0 <= i < |attempts| ==> Accepted(attempts[i])
    ensures var (p, fired) := Priming.Ticks(ing.primer, TotalChunks(attempts));
            var r := Attempts(env, ing, attempts);
            r.running && r.primer == p && r.sent == ing.sent + Repeat(Output.Start(env.key), fired)
    decreases |attempts|
  {
    if attempts != [] {
      var a := attempts[0];
      var start := IcyDemux.Initial(Headers.MetaInterval(a.icyMetaint), ing.title);
      ChunksDelivered(env, Conn(ing.primer, ing.sent, start, false), a.chunks);
      var next := Connect(env, ing, a);
      AttemptsDelivered(env, next, attempts[1..]);
      Priming.TicksAdd(ing.primer, |a.chunks|, TotalChunks(attempts[1..]));
      var f1 := Priming.Ticks(ing.primer, |a.chunks|).1;
      var f2 := Priming.Ticks(next.primer, TotalChunks(attempts[1..])).1;
      RepeatAdd(Output.Start(env.key), f1, f2);
    }
  }

  /**
   * The priming Start is delivered on the twenty-first chunk, counted across
   * reconnects, and never a second time.
   */
  lemma StartOnTwentyFirstChunk(name: string, attempts: seq<Attempt>, title: string, errorTitle: string)
    requires forall i :: 0 <= i < |attempts| ==> Accepted(attempts[i])
    ensures Ingestion(name, attempts, true, title, errorTitle).sent ==
              if TotalChunks(attempts) > CHUNKS_BEFORE_START then [Output.Start(Station.Normalize(name))] else []
  {
    AttemptsDelivered(Env(Station.Normalize(name), true, errorTitle), Begin(title), attempts);
    Priming.FiresOnce(CHUNKS_BEFORE_START, TotalChunks(attempts));
  }

  /** With a worker that no longer listens, the chunk that should deliver the Start ends the connection instead. */
  lemma {:induction false} ChunksUndelivered(env: Env, c: Conn, chunks: seq<seq<byte>>)
    requires !env.downstreamOpen && !c.failed && c.primer.shouldRestart
    ensures Chunks(env, c, chunks).sent == c.sent
    ensures Chunks(env, c, chunks).failed <==> |chunks| > c.primer.countDown
    ensures !Chunks(env, c, chunks).failed ==> Chunks(env, c, chunks).primer == Priming.Primer(c.primer.countDown - |chunks|, true)
    decreases |chunks|
  {
    if chunks != [] {
      var next := AfterChunk(env, c, chunks[0]);
      if !next.failed {
        ChunksUndelivered(env, next, chunks[1..]);
      }
    }
  }

  /**
   * Accepted responses but a worker that no longer listens: the ingest task runs
   * while the countdown lasts; the chunk that should deliver the Start
   * publishes the error title and ends it, and nothing is ever delivered.
   */
  lemma {:induction false} AttemptsUndelivered(env: Env, ing: Ingest, attempts: seq<Attempt>)
    requires !env.downstreamOpen && ing.running && ing.primer.shouldRestart
    requires forall i :: 0 <= i < |attempts| ==> Accepted(attempts[i])
    ensures Attempts(env, ing, attempts).sent == ing.sent
    ensures Attempts(env, ing, attempts).running <==> TotalChunks(attempts) <= ing.primer.countDown
    ensures !Attempts(env, ing, attempts).running ==> Attempts(env, ing, attempts).title == env.errorTitle
    decreases |attempts|
  {
    if attempts != [] {
      var a := attempts[0];
      var start := IcyDemux.Initial(Headers.MetaInterval(a.icyMetaint), ing.title);
      ChunksUndelivered(env, Conn(ing.primer, ing.sent, start, false), a.chunks);
      var next := Connect(env, ing, a);
      if next.running {
        AttemptsUndelivered(env, next, attempts[1..]);
      }
    }
  }

  /** A failed connect or a rejected `content-type` ends the ingest task before any spool file exists. */
  lemma RejectedFirstAttempt(name: string, a: Attempt, rest: seq<Attempt>, downstreamOpen: bool, title: string, errorTitle: string)
    requires !Accepted(a)
    ensures Ingestion(name, [a] + rest, downstreamOpen, title, errorTitle) ==
              Ingest(Priming.Primer(CHUNKS_BEFORE_START, true), if downstreamOpen then [Output.Pause] else [], errorTitle, None, false)
  {
    var env := Env(Station.Normalize(name), downstreamOpen, errorTitle);
    assert ([a] + rest)[0] == a;
    var failed := Connect(env, Begin(title), a);
    assert failed == Fail(env, Begin(title));
    assert Ingestion(name, [a] + rest, downstreamOpen, title, errorTitle) == Attempts(env, failed, ([a] + rest)[1..]);
  }

  /** Without usable `icy-metaint`, a response body goes to the spool unchanged and the title stays as it was. */
  lemma UnframedResponse(name: string, contentType: Option<string>, icyMetaint: Option<string>, chunks: seq<seq<byte>>, title: string, errorTitle: string)
    requires Headers.ContentTypeAccepted(contentType) && Headers.MetaInterval(icyMetaint) == 0
    ensures var r := Ingestion(name, [Response(contentType, icyMetaint, chunks)], true, title, errorTitle);
            r.running && r.spool == Some(Flatten(chunks)) && r.title == title
  {
    var env := Env(Station.Normalize(name), true, errorTitle);
    var start := IcyDemux.Initial(0, title);
    var a := Response(contentType, icyMetaint, chunks);
    ChunksDelivered(env, Conn(Begin(title).primer, [], start, false), chunks);
    IcyDemux.RunChunksIsRun(start, chunks);
    IcyDemux.UnframedIsAudio(start, Flatten(chunks));
    var c := Chunks(env, Conn(Begin(title).primer, [], start, false), chunks);
    assert c.demux == start.(spool := Flatten(chunks)) && !c.failed;
    assert Connect(env, Begin(title), a) == Ingest(c.primer, c.sent, title, Some(Flatten(chunks)), true);
    assert [a][0] == a && [a][1..] == [];
    assert Ingestion(name, [a], true, title, errorTitle) == Attempts(env, Connect(env, Begin(title), a), []);
  }

  /** Reconnecting truncates the spool: afterwards it holds what the latest response demultiplexed to. */
  lemma {:induction false} SpoolOfLastResponse(env: Env, ing: Ingest, attempts: seq<Attempt>, last: Attempt)
    requires Attempts(env, ing, attempts).running && Accepted(last)
    requires env.downstreamOpen
    ensures var before := Attempts(env, ing, attempts);
            Attempts(env, ing, attempts + [last]).spool ==
              Some(IcyDemux.RunChunks(IcyDemux.Initial(Headers.MetaInterval(last.icyMetaint), before.title), last.chunks).spool)
    decreases |attempts|
  {
    var before := Attempts(env, ing, attempts);
    var start := IcyDemux.Initial(Headers.MetaInterval(last.icyMetaint), before.title);
    if attempts == [] {
      assert [] + [last] == [last];
      ChunksDelivered(env, Conn(before.primer, before.sent, start, false), last.chunks);
    } else {
      assert (attempts + [last])[0] == attempts[0] && (attempts + [last])[1..] == attempts[1..] + [last];
      SpoolOfLastResponse(env, Connect(env, ing, attempts[0]), attempts[1..], last);
    }
  }

  /** src/input.rs:16-110: one connection attempt, demultiplexing each chunk in place. */
  method Receive(env: Env, ing: Ingest, a: Attempt) returns (r: Ingest)
    ensures r == Connect(env, ing, a)
  {
    if a.ConnectFailed? || !Headers.ContentTypeAccepted(a.contentType) {
      var sent := ing.sent;
      if env.downstreamOpen {
        sent := sent + [Output.Pause];
      }
      return ing.(sent := sent, title := env.errorTitle, running := false);
    }
    var metaInterval := Headers.MetaInterval(a.icyMetaint);
    var demuxer := new IcyDemux.Demuxer(metaInterval, ing.title);
    var countDown, shouldRestart := ing.primer.countDown, ing.primer.shouldRestart;
    var sent := ing.sent;
    var failed := false;
    ghost var c0 := Conn(ing.primer, ing.sent, IcyDemux.Initial(metaInterval, ing.title), false);
    var j := 0;
    while j < |a.chunks| && !failed
      invariant 0 <= j <= |a.chunks|
      invariant Chunks(env, Conn(Priming.Primer(countDown, shouldRestart), sent, demuxer.State(), failed), a.chunks[j..]) == Chunks(env, c0, a.chunks)
    {
      assert a.chunks[j..][0] == a.chunks[j] && a.chunks[j..][1..] == a.chunks[j + 1..];
      ghost var before := Conn(Priming.Primer(countDown, shouldRestart), sent, demuxer.State(), failed);
      demuxer.Feed(a.chunks[j]);
      if shouldRestart {
        if countDown == 0 {
          if env.downstreamOpen {
            sent := sent + [Output.Start(env.key)];
            shouldRestart := false;
          } else {
            failed := true;
          }
        } else {
          countDown := countDown - 1;
        }
      }
      assert AfterChunk(env, before, a.chunks[j]) == Conn(Priming.Primer(countDown, shouldRestart), sent, demuxer.State(), failed);
      j := j + 1;
    }
    r := Ingest(Priming.Primer(countDown, shouldRestart), sent, if failed then env.errorTitle else demuxer.title, Some(demuxer.spool), !failed);
  }

  /** src/input.rs:7-112 over the given attempts. */
  method Input(name: string, attempts: seq<Attempt>, downstreamOpen: bool, title: string, errorTitle: string) returns (r: Ingest)
    ensures r == Ingestion(name, attempts, downstreamOpen, title, errorTitle)
  {
    var env := Env(Station.Normalize(name), downstreamOpen, errorTitle);
    r := Begin(title);
    var i := 0;
    while i < |attempts| && r.running
      invariant 0 <= i <= |attempts|
      invariant Attempts(env, r, attempts[i..]) == Ingestion(name, attempts, downstreamOpen, title, errorTitle)
    {
      assert attempts[i..][0] == attempts[i] && attempts[i..][1..] == attempts[i + 1..];
      r := Receive(env, r, attempts[i]);
      i := i + 1;
    }
  }
}

