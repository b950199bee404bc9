/**
 * The older ingest loop `start_ratio` (src/main.rs:199-246). For every
 * connection it truncates the spool file of the current station, then for
 * each chunk of the response it writes the chunk, polls at most one command
 * from the interface, and runs the priming countdown, which sends
 * `Start(name, url)` to the older playback worker on the eleventh chunk.
 * A Start for another station switches the station and reconnects.
 * Each connection is given as the chunks its response delivers, each paired
 * with the command that `try_recv` returned after it, if any.
 */
module StartRatio {
  import opened Common
  import Station
  import Priming
  import opened SinkWorker

  /** src/main.rs:15. */
  const CHUNKS_BEFORE_START: nat := 10

  datatype Chunk = Chunk(data: seq<byte>, polled: Option<SinkCommand>)

  /** The loop's locals `name`, `url`, `count_down`, `should_restart`; what it sent to the worker; and the spool files. */
  datatype Ratio = Ratio(name: string, url: string, primer: Priming.Primer, sent: seq<SinkCommand>, files: map<string, seq<byte>>)

  /** How a chunk leaves the chunk loop: go on, reconnect (src/main.rs:224), or return (src/main.rs:228). */
  datatype Flow = Proceed | Restart | Stop

  /** src/main.rs:199-202. */
  function Init(name: string, url: string): (r: Ratio)
    ensures Station.IsSpoolKey(r.name) && r.sent == [] && r.primer == Priming.Primer(CHUNKS_BEFORE_START, true)
  {
    Ratio(Station.Normalize(name), url, Priming.Primer(CHUNKS_BEFORE_START, true), [], map[])
  }

  function FileOf(files: map<string, seq<byte>>, name: string): seq<byte> {
    if name in files then files[name] else []
  }

  /** src/main.rs:235-244, after a chunk that was not a Start. */
  function Prime(st: Ratio): (r: Ratio)
    ensures r.name == st.name && r.url == st.url && r.files == st.files
    ensures r.sent == st.sent || r.sent == st.sent + [Start(st.name, st.url)]
  {
    var (primer, fire) := Priming.Tick(st.primer);
    st.(primer := primer, sent := st.sent + if fire then [Start(st.name, st.url)] else [])
  }

  /** src/main.rs:212-244: one chunk of a response. */
  function OnChunk(st: Ratio, c: Chunk): (r: (Ratio, Flow))
    // the chunk reaches the current spool before any command is looked at
    ensures r.0.files == st.files[st.name := FileOf(st.files, st.name) + c.data]
    // a Start of the station already playing changes nothing else and skips the countdown
    ensures c.polled.Some? && c.polled.value.Start? && Station.Normalize(c.polled.value.name) == st.name && c.polled.value.url == st.url ==>
              r == (st.(files := r.0.files), Proceed)
    // a Start of another station switches to it, re-arms the countdown and reconnects
    ensures r.1 == Restart <==> c.polled.Some? && c.polled.value.Start? && (Station.Normalize(c.polled.value.name) != st.name || c.polled.value.url != st.url)
    ensures r.1 == Restart ==> r.0.name == Station.Normalize(c.polled.value.name) && r.0.url == c.polled.value.url &&
                               r.0.primer == Priming.Primer(CHUNKS_BEFORE_START, true) && r.0.sent == st.sent
    // Quit is forwarded and ends the loop
    ensures r.1 == Stop <==> c.polled == Some(Quit)
    ensures r.1 == Stop ==> r.0.sent == st.sent + [Quit]
    // Play and Pause are forwarded as they are, possibly followed by the priming Start
    ensures c.polled == Some(Play) || c.polled == Some(Pause) ==>
              r.0.sent == st.sent + [c.polled.value] || r.0.sent == st.sent + [c.polled.value, Start(st.name, st.url)]
    ensures c.polled.None? ==> r.0.sent == st.sent || r.0.sent == st.sent + [Start(st.name, st.url)]
    // every chunk but a Start or a Quit runs the countdown, after forwarding its command
    ensures Counts(c) ==> r.1 == Proceed && r.0.primer == Priming.Tick(st.primer).0
    ensures Counts(c) ==> r.0.sent == st.sent + Cmd(c) + (if Priming.Tick(st.primer).1 then [Start(st.name, st.url)] else [])
    ensures r.1 != Restart ==> r.0.name == st.name && r.0.url == st.url
  {
    var written := st.(files := st.files[st.name := FileOf(st.files, st.name) + c.data]);
    match c.polled
    case None => (Prime(written), Proceed)
    case Some(cmd) =>
      match cmd
      case Start(newName, newUrl) =>
        var key := Station.Normalize(newName);
        if key == st.name && newUrl == st.url then (written, Proceed)
        else (written.(name := key, url := newUrl, primer := Priming.Primer(CHUNKS_BEFORE_START, true)), Restart)
      case Quit => (written.(sent := written.sent + [Quit]), Stop)
      case _ => (Prime(written.(sent := written.sent + [cmd])), Proceed)
  }

  /** src/main.rs:211-245: the chunks of one response, until a Start of another station or a Quit. */
  function Connection(st: Ratio, chunks: seq<Chunk>): (r: (Ratio, Flow))
    decreases |chunks|
    ensures st.sent <= r.0.sent
    // the connection returns exactly when it forwarded a Quit, and forwards nothing after it
    ensures r.1 == Stop ==> |r.0.sent| > |st.sent| && r.0.sent[|r.0.sent| - 1] == Quit && Quit !in r.0.sent[|st.sent|..|r.0.sent| - 1]
    ensures r.1 != Stop ==> Quit !in r.0.sent[|st.sent|..]
  {
    if chunks == [] then (st, Proceed)
    else
      var (next, flow) := OnChunk(st, chunks[0]);
      if flow != Proceed then (next, flow) else Connection(next, chunks[1..])
  }

  /**
   * A connection keeps every spool file it found, and it reconnects only
   * because a polled Start named another station, which is then current with
   * the countdown re-armed.
   */
  lemma {:induction false} ConnectionRestart(st: Ratio, chunks: seq<Chunk>)
    ensures forall k :: k in st.files ==> k in Connection(st, chunks).0.files
    ensures Connection(st, chunks).1 == Restart ==>
              && Connection(st, chunks).0.primer == Priming.Primer(CHUNKS_BEFORE_START, true)
              && exists j :: 0 <= j < |chunks| && SwitchesTo(chunks[j], Connection(st, chunks).0.name, Connection(st, chunks).0.url)
    decreases |chunks|
  {
    if chunks != [] {
      var (next, flow) := OnChunk(st, chunks[0]);
      if flow == Restart {
        assert SwitchesTo(chunks[0], next.name, next.url);
      } else if flow == Proceed {
        ConnectionRestart(next, chunks[1..]);
        var r := Connection(next, chunks[1..]);
        if r.1 == Restart {
          var j :| 0 <= j < |chunks| - 1 && SwitchesTo(chunks[1..][j], r.0.name, r.0.url);
          assert chunks[1..][j] == chunks[j + 1];
        }
      }
    }
  }

  /** The chunk's polled command is a Start whose normalised name and url are `name` and `url`. */
  predicate SwitchesTo(c: Chunk, name: string, url: string) {
    c.polled.Some? && c.polled.value.Start? && Station.Normalize(c.polled.value.name) == name && c.polled.value.url == url
  }

  /** src/main.rs:205-207: `File::create` truncates the current station's spool and leaves every other file alone. */
  function Created(st: Ratio): (r: Ratio)
    ensures st.name in r.files && r.files[st.name] == []
    ensures forall k :: k != st.name ==> (k in r.files <==> k in st.files)
    ensures forall k :: k != st.name && k in st.files ==> r.files[k] == st.files[k]
    ensures r.name == st.name && r.url == st.url && r.primer == st.primer && r.sent == st.sent
  {
    st.(files := st.files[st.name := []])
  }

  /** src/main.rs:204-246 over the given connections: each one starts by truncating the current station's spool. */
  function Session(st: Ratio, connections: seq<seq<Chunk>>): (r: Ratio)
    decreases |connections|
    ensures st.sent <= r.sent
    // Quit is forwarded at most once, and nothing follows it
    ensures Quit !in st.sent ==> forall i :: 0 <= i < |r.sent| && r.sent[i] == Quit ==> i == |r.sent| - 1
  {
    if connections == [] then st
    else
      var (next, flow) := Connection(Created(st), connections[0]);
      if flow == Stop then next else Session(next, connections[1..])
  }

  /** A chunk that runs the countdown: its polled command, if any, is Play or Pause. */
  predicate Counts(c: Chunk) {
    !(c.polled.Some? && (c.polled.value.Start? || c.polled.value.Quit?))
  }

  predicate Counted(chunks: seq<Chunk>) {
    forall i :: 0 <= i < |chunks| ==> Counts(chunks[i])
  }

  /** What a chunk forwards to the worker as it is (Play or Pause), before any priming Start. */
  function Cmd(c: Chunk): seq<SinkCommand> {
    if c.polled.Some? then [c.polled.value] else []
  }

  /** The commands polled with the chunks, in order. */
  function Polled(chunks: seq<Chunk>): seq<SinkCommand>
    decreases |chunks|
  {
    if chunks == [] then [] else Cmd(chunks[0]) + Polled(chunks[1..])
  }

  /** The bytes of the chunks, in order. */
  function Data(chunks: seq<Chunk>): seq<byte> {
    Flatten(seq(|chunks|, i requires 0 <= i < |chunks| => chunks[i].data))
  }

  lemma DataCons(chunks: seq<Chunk>)
    requires chunks != []
    ensures Data(chunks) == chunks[0].data + Data(chunks[1..])
  {
    var datas := seq(|chunks|, i requires 0 <= i < |chunks| => chunks[i].data);
    assert datas[1..] == seq(|chunks| - 1, i requires 0 <= i < |chunks| - 1 => chunks[1..][i].data);
  }

  /**
   * Reference definition of what chunks that run the countdown forward, from
   * primer `p`: each chunk's own command, followed by `start` on the chunk
   * whose countdown fires.
   */
  function Forwarded(p: Priming.Primer, chunks: seq<Chunk>, start: SinkCommand): seq<SinkCommand>
    decreases |chunks|
  {
    if chunks == [] then []
    else
      var (q, fire) := Priming.Tick(p);
      Cmd(chunks[0]) + (if fire then [start] else []) + Forwarded(q, chunks[1..], start)
  }

  /** A cleared latch forwards the polled commands and nothing else. */
  lemma {:induction false} ForwardedCleared(p: Priming.Primer, chunks: seq<Chunk>, start: SinkCommand)
    requires !p.shouldRestart
    ensures Forwarded(p, chunks, start) == Polled(chunks)
    decreases |chunks|
  {
    if chunks != [] {
      ForwardedCleared(p, chunks[1..], start);
    }
  }

  /**
   * Armed at `c`, the countdown forwards the polled commands with `start`
   * inserted right after the command of chunk c + 1, if there is such a chunk.
   */
  lemma {:induction false} ForwardedArmed(c: nat, chunks: seq<Chunk>, start: SinkCommand)
    ensures Forwarded(Priming.Primer(c, true), chunks, start) ==
              if |chunks| > c then Polled(chunks[..c + 1]) + [start] + Polled(chunks[c + 1..]) else Polled(chunks)
    decreases |chunks|, 1
  {
    if chunks != [] {
      if c == 0 {
        ForwardedFires(chunks, start);
      } else {
        ForwardedArmedStep(c, chunks, start);
      }
    }
  }

  /** The chunk that finds the countdown at 0 is followed by `start`, and nothing is added after it. */
  lemma ForwardedFires(chunks: seq<Chunk>, start: SinkCommand)
    requires chunks != []
    ensures Forwarded(Priming.Primer(0, true), chunks, start) == Polled(chunks[..1]) + [start] + Polled(chunks[1..])
  {
    var rest := chunks[1..];
    assert Priming.Tick(Priming.Primer(0, true)) == (Priming.Primer(0, false), true);
    ForwardedCleared(Priming.Primer(0, false), rest, start);
    assert chunks[..1][0] == chunks[0] && chunks[..1][1..] == [];
  }

  /** A chunk that only counts down forwards its command and leaves the rest to the smaller countdown. */
  lemma {:induction false} ForwardedArmedStep(c: nat, chunks: seq<Chunk>, start: SinkCommand)
    requires c > 0 && chunks != []
    ensures Forwarded(Priming.Primer(c, true), chunks, start) ==
              if |chunks| > c then Polled(chunks[..c + 1]) + [start] + Polled(chunks[c + 1..]) else Polled(chunks)
    decreases |chunks|, 0
  {
    var rest := chunks[1..];
    var head := Cmd(chunks[0]);
    ForwardedCountsDown(c, chunks, start);
    ForwardedArmed(c - 1, rest, start);
    if |chunks| > c {
      var before, after := Polled(rest[..c]), Polled(rest[c..]);
      PolledPrefix(chunks, c + 1);
      assert chunks[c + 1..] == rest[c..];
      Regroup(head, before, [start], after);
    }
  }

  /** Unfolding one chunk that finds the countdown positive. */
  lemma ForwardedCountsDown(c: nat, chunks: seq<Chunk>, start: SinkCommand)
    requires c > 0 && chunks != []
    ensures Forwarded(Priming.Primer(c, true), chunks, start) == Cmd(chunks[0]) + Forwarded(Priming.Primer(c - 1, true), chunks[1..], start)
  {
    assert Priming.Tick(Priming.Primer(c, true)) == (Priming.Primer(c - 1, true), false);
  }

  /** The commands of the first `k` chunks are the first chunk's and those of the next `k - 1`. */
  lemma PolledPrefix(chunks: seq<Chunk>, k: nat)
    requires 0 < k <= |chunks|
    ensures Polled(chunks[..k]) == Cmd(chunks[0]) + Polled(chunks[1..][..k - 1])
  {
    assert chunks[..k][0] == chunks[0] && chunks[..k][1..] == chunks[1..][..k - 1];
  }

  /** Forwarding over `a + b` is forwarding over `a`, then over `b` from where the countdown got to. */
  lemma {:induction false} ForwardedAppend(p: Priming.Primer, a: seq<Chunk>, b: seq<Chunk>, start: SinkCommand)
    ensures Forwarded(p, a + b, start) == Forwarded(p, a, start) + Forwarded(Priming.Ticks(p, |a|).0, b, start)
    decreases |a|
  {
    if a == [] {
      assert a + b == b;
    } else {
      assert (a + b)[0] == a[0] && (a + b)[1..] == a[1..] + b;
      ForwardedAppend(Priming.Tick(p).0, a[1..], b, start);
    }
  }

  /**
   * Chunks that poll nothing or only Play and Pause keep the station, run the
   * countdown once each, and forward their commands with the priming Start
   * where the countdown fires.
   */
  lemma {:induction false} CountedConnection(st: Ratio, chunks: seq<Chunk>)
    requires Counted(chunks)
    ensures Connection(st, chunks).1 == Proceed
    ensures Connection(st, chunks).0.name == st.name && Connection(st, chunks).0.url == st.url
    ensures Connection(st, chunks).0.primer == Priming.Ticks(st.primer, |chunks|).0
    ensures Connection(st, chunks).0.sent == st.sent + Forwarded(st.primer, chunks, Start(st.name, st.url))
    decreases |chunks|
  {
    if chunks != [] {
      var start := Start(st.name, st.url);
      var (p, fire) := Priming.Tick(st.primer);
      assert Counts(chunks[0]);
      var next := CountedChunk(st, chunks[0]);
      assert Connection(st, chunks) == Connection(next, chunks[1..]);
      assert Counted(chunks[1..]) by {
        assert forall i :: 0 <= i < |chunks| - 1 ==> chunks[1..][i] == chunks[i + 1];
      }
      CountedConnection(next, chunks[1..]);
      Priming.TicksStep(st.primer, |chunks|);
      ForwardedStep(st.primer, chunks, start);
      Regroup(st.sent, Cmd(chunks[0]), if fire then [start] else [], Forwarded(p, chunks[1..], start));
    }
  }

  /** One chunk that polls nothing, Play or Pause: spooled, forwarded and counted. */
  lemma CountedChunk(st: Ratio, c: Chunk) returns (next: Ratio)
    requires Counts(c)
    ensures OnChunk(st, c) == (next, Proceed)
    ensures next.name == st.name && next.url == st.url && next.primer == Priming.Tick(st.primer).0
    ensures next.sent == st.sent + Cmd(c) + (if Priming.Tick(st.primer).1 then [Start(st.name, st.url)] else [])
  {
    next := OnChunk(st, c).0;
  }

  /** Unfolding `Forwarded` at the first chunk. */
  lemma ForwardedStep(p: Priming.Primer, chunks: seq<Chunk>, start: SinkCommand)
    requires chunks != []
    ensures Forwarded(p, chunks, start) ==
              Cmd(chunks[0]) + (if Priming.Tick(p).1 then [start] else []) + Forwarded(Priming.Tick(p).0, chunks[1..], start)
  {
  }

  /** The same chunks are all appended to the current spool, in order. */
  lemma {:induction false} CountedSpool(st: Ratio, chunks: seq<Chunk>)
    requires st.name in st.files && Counted(chunks)
    ensures Connection(st, chunks).0.files == st.files[st.name := st.files[st.name] + Data(chunks)]
    decreases |chunks|
  {
    if chunks != [] {
      assert Counts(chunks[0]);
      var next := OnChunk(st, chunks[0]).0;
      assert next.name == st.name && next.files == st.files[st.name := st.files[st.name] + chunks[0].data];
      CountedSpool(next, chunks[1..]);
      DataCons(chunks);
      assert st.files[st.name] + chunks[0].data + Data(chunks[1..]) == st.files[st.name] + Data(chunks);
    } else {
      assert st.files[st.name] + Data(chunks) == st.files[st.name];
      assert st.files[st.name := st.files[st.name]] == st.files;
    }
  }

  /**
   * With the countdown freshly armed (at start-up or after a switch) and no
   * Start or Quit polled, the worker is told to start right after the
   * eleventh chunk, and only then.
   */
  lemma PrimedOnEleventhChunk(st: Ratio, chunks: seq<Chunk>)
    requires st.primer == Priming.Primer(CHUNKS_BEFORE_START, true) && Counted(chunks)
    ensures Connection(st, chunks).0.sent == st.sent +
              if |chunks| > CHUNKS_BEFORE_START
              then Polled(chunks[..CHUNKS_BEFORE_START + 1]) + [Start(st.name, st.url)] + Polled(chunks[CHUNKS_BEFORE_START + 1..])
              else Polled(chunks)
  {
    CountedConnection(st, chunks);
    ForwardedArmed(CHUNKS_BEFORE_START, chunks, Start(st.name, st.url));
  }

  /**
   * Across reconnects that poll no Start or Quit, the station stays and one
   * countdown runs over the chunks of all connections together.
   */
  lemma {:induction false} CountedSession(st: Ratio, connections: seq<seq<Chunk>>)
    requires forall i :: 0 <= i < |connections| ==> Counted(connections[i])
    ensures Session(st, connections).name == st.name && Session(st, connections).url == st.url
    ensures Session(st, connections).primer == Priming.Ticks(st.primer, |Flatten(connections)|).0
    ensures Session(st, connections).sent == st.sent + Forwarded(st.primer, Flatten(connections), Start(st.name, st.url))
    decreases |connections|
  {
    if connections != [] {
      var first, rest := connections[0], connections[1..];
      assert Counted(first);
      CountedConnection(Created(st), first);
      var next := Connection(Created(st), first).0;
      assert Session(st, connections) == Session(next, rest);
      assert forall i :: 0 <= i < |rest| ==> rest[i] == connections[i + 1];
      CountedSession(next, rest);
      assert Flatten(connections) == first + Flatten(rest);
      SessionPrimer(st.primer, next.primer, |first|, |Flatten(rest)|, |Flatten(connections)|);
      SessionSent(st.primer, st.sent, first, Flatten(rest), Start(st.name, st.url));
    }
  }

  /** The countdown after the first connection, then the rest, is the countdown after all of them. */
  lemma SessionPrimer(p: Priming.Primer, q: Priming.Primer, a: nat, b: nat, n: nat)
    requires q == Priming.Ticks(p, a).0 && n == a + b
    ensures Priming.Ticks(q, b).0 == Priming.Ticks(p, n).0
  {
    Priming.TicksAdd(p, a, b);
  }

  /** What the first connection forwards, then the rest, is what all of them forward. */
  lemma SessionSent(p: Priming.Primer, sent: seq<SinkCommand>, first: seq<Chunk>, rest: seq<Chunk>, start: SinkCommand)
    ensures sent + Forwarded(p, first, start) + Forwarded(Priming.Ticks(p, |first|).0, rest, start) == sent + Forwarded(p, first + rest, start)
  {
    ForwardedAppend(p, first, rest, start);
    Associate(sent, Forwarded(p, first, start), Forwarded(Priming.Ticks(p, |first|).0, rest, start));
  }

  /**
   * A station that keeps playing is primed once, right after its eleventh
   * chunk counted across reconnects; the countdown is not re-armed when a
   * response simply ends.
   */
  lemma PrimedAcrossReconnects(st: Ratio, connections: seq<seq<Chunk>>)
    requires st.primer == Priming.Primer(CHUNKS_BEFORE_START, true)
    requires forall i :: 0 <= i < |connections| ==> Counted(connections[i])
    ensures var all := Flatten(connections);
            Session(st, connections).sent == st.sent +
              if |all| > CHUNKS_BEFORE_START
              then Polled(all[..CHUNKS_BEFORE_START + 1]) + [Start(st.name, st.url)] + Polled(all[CHUNKS_BEFORE_START + 1..])
              else Polled(all)
  {
    CountedSession(st, connections);
    ForwardedArmed(CHUNKS_BEFORE_START, Flatten(connections), Start(st.name, st.url));
  }

  /**
   * A switch ends the connection: the session goes on from the switched
   * state, whose countdown is re-armed, and the next connection starts the
   * new station's spool empty without touching the previous station's spool.
   */
  lemma SwitchReconnects(st: Ratio, connections: seq<seq<Chunk>>)
    requires connections != [] && Connection(Created(st), connections[0]).1 == Restart
    ensures var next := Connection(Created(st), connections[0]).0;
            && Session(st, connections) == Session(next, connections[1..])
            && next.primer == Priming.Primer(CHUNKS_BEFORE_START, true)
            && (exists j :: 0 <= j < |connections[0]| && SwitchesTo(connections[0][j], next.name, next.url))
            && Created(next).files[next.name] == []
            && (next.name != st.name ==> st.name in next.files && Created(next).files[st.name] == next.files[st.name])
  {
    ConnectionRestart(Created(st), connections[0]);
  }

  /**
   * After a switch, the new station is primed once, right after its own
   * eleventh counted chunk: one `Start` per station.
   */
  lemma StartPerStation(st: Ratio, connections: seq<seq<Chunk>>)
    requires connections != [] && Connection(Created(st), connections[0]).1 == Restart
    requires forall i :: 1 <= i < |connections| ==> Counted(connections[i])
    ensures var next := Connection(Created(st), connections[0]).0;
            var all := Flatten(connections[1..]);
            Session(st, connections).sent == next.sent +
              if |all| > CHUNKS_BEFORE_START
              then Polled(all[..CHUNKS_BEFORE_START + 1]) + [Start(next.name, next.url)] + Polled(all[CHUNKS_BEFORE_START + 1..])
              else Polled(all)
  {
    SwitchReconnects(st, connections);
    var next := Connection(Created(st), connections[0]).0;
    assert forall i :: 0 <= i < |connections[1..]| ==> connections[1..][i] == connections[i + 1];
    PrimedAcrossReconnects(next, connections[1..]);
  }

  /** src/main.rs:212-244: one chunk, on the loop's locals. */
  method SpoolChunk(st: Ratio, chunk: Chunk) returns (r: Ratio, flow: Flow)
    ensures (r, flow) == OnChunk(st, chunk)
  {
    var station, currentUrl, sent := st.name, st.url, st.sent;
    var countDown, shouldRestart := st.primer.countDown, st.primer.shouldRestart;
    var files := st.files[station := FileOf(st.files, station) + chunk.data];
    r := st.(files := files);
    flow := Proceed;
    if chunk.polled.Some? {
      var message := chunk.polled.value;
      if message.Start? {
        var key := Station.Normalize(message.name);
        if key == station && message.url == currentUrl {
          return;
        }
        r := Ratio(key, message.url, Priming.Primer(CHUNKS_BEFORE_START, true), sent, files);
        flow := Restart;
        return;
      } else if message.Quit? {
        r := r.(sent := sent + [message]);
        flow := Stop;
        return;
      }
      sent := sent + [message];
    }
    if shouldRestart {
      if countDown == 0 {
        sent := sent + [Start(station, currentUrl)];
        shouldRestart := false;
      } else {
        countDown := countDown - 1;
      }
    }
    r := Ratio(station, currentUrl, Priming.Primer(countDown, shouldRestart), sent, files);
  }

  /** src/main.rs:211-245: the chunk loop of one connection. */
  method SpoolResponse(st: Ratio, chunks: seq<Chunk>) returns (r: Ratio, flow: Flow)
    ensures (r, flow) == Connection(st, chunks)
  {
    r := st;
    flow := Proceed;
    var j := 0;
    while j < |chunks| && flow == Proceed
      invariant 0 <= j <= |chunks|
      invariant flow == Proceed ==> Connection(r, chunks[j..]) == Connection(st, chunks)
      invariant flow != Proceed ==> (r, flow) == Connection(st, chunks)
    {
      assert chunks[j..][0] == chunks[j] && chunks[j..][1..] == chunks[j + 1..];
      r, flow := SpoolChunk(r, chunks[j]);
      j := j + 1;
    }
  }

  /** src/main.rs:199-246 over the given connections: truncate the current spool, then spool the response. */
  method StartRatio(name: string, url: string, connections: seq<seq<Chunk>>) returns (r: Ratio)
    ensures r == Session(Init(name, url), connections)
  {
    r := Ratio(Station.Normalize(name), url, Priming.Primer(CHUNKS_BEFORE_START, true), [], map[]);
    var i := 0;
    var flow := Proceed;
    while i < |connections| && flow != Stop
      invariant 0 <= i <= |connections|
      invariant flow == Stop ==> r == Session(Init(name, url), connections)
      invariant flow != Stop ==> Session(r, connections[i..]) == Session(Init(name, url), connections)
    {
      assert connections[i..][0] == connections[i] && connections[i..][1..] == connections[i + 1..];
      r := r.(files := r.files[r.name := []]);
      r, flow := SpoolResponse(r, connections[i]);
      i := i + 1;
    }
  }
}
