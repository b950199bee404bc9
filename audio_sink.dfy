/**
 * The part of rodio's `Sink` that the two playback workers observe: whether it
 * is paused, its volume, and the sources queued on it (each named by the
 * spool file it decodes). Opening a file, building a `Decoder` and creating a
 * sink are foreign calls; a `Backend` says which of them succeed.
 */
module AudioSink {

  datatype Sink = Sink(paused: bool, volume: real, queue: seq<string>)

  /** `Sink::try_new`: an unpaused sink at volume 1.0 with nothing queued. */
  const FRESH: Sink := Sink(false, 1.0, [])

  /** `Sink::stop`: the queued sources are dropped. */
  function Stop(s: Sink): Sink {
    s.(queue := [])
  }

  function Play(s: Sink): Sink {
    s.(paused := false)
  }

  function Pause(s: Sink): Sink {
    s.(paused := true)
  }

  function SetVolume(s: Sink, v: real): Sink {
    s.(volume := v)
  }

  function Append(s: Sink, source: string): Sink {
    s.(queue := s.queue + [source])
  }

  /** Which of `File::open`, `Decoder::new` and `Sink::try_new` succeed when tried. */
  datatype Backend = Backend(opens: bool, decodes: bool, sinkCreated: bool)

  predicate AllSucceed(b: Backend) {
    b.opens && b.decodes && b.sinkCreated
  }
}
