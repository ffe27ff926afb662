/**
 * scripts/audio/audio_switcher.py: the audio part of a switch. It holds a sink switcher
 * when `audio.change_sink` is set and a source switcher when `audio.change_source` is set,
 * and forwards `switch_to_vr` / `switch_to_normal` to the sink switcher first and then to
 * the source switcher. An error the sink switcher raises ends the switch before the source
 * switcher is asked.
 */
module AudioSwitching {
  import opened Wrappers
  import opened Pactl
  import opened OutputLogging
  import opened Rerouting
  import opened StreamSwitching

  /** What the audio server answers when a switcher is opened: its endpoints, and `pactl info`. */
  datatype Opening = Opening(streams: Reply, info: Reply)

  /** The switchers `AudioSwitcher.__init__` builds: sink first, then source, each only when enabled. */
  function Switchers(s: AudioSettings, m: Matcher, sinks: Opening, sources: Opening): (r: Result<(bool, bool), SwitchError>)
    ensures r.Success? ==> r.value == (s.changeSink, s.changeSource)
    ensures r.Success? <==>
              (s.changeSink ==> Endpoints(Sinks, s, m, sinks.streams, sinks.info).Success?) &&
              (s.changeSource ==> Endpoints(Sources, s, m, sources.streams, sources.info).Success?)
    ensures s.changeSink && Endpoints(Sinks, s, m, sinks.streams, sinks.info).Failure? ==>
              r == Failure(Endpoints(Sinks, s, m, sinks.streams, sinks.info).error)
  {
    if s.changeSink && Endpoints(Sinks, s, m, sinks.streams, sinks.info).Failure? then
      Failure(Endpoints(Sinks, s, m, sinks.streams, sinks.info).error)
    else if s.changeSource && Endpoints(Sources, s, m, sources.streams, sources.info).Failure? then
      Failure(Endpoints(Sources, s, m, sources.streams, sources.info).error)
    else Success((s.changeSink, s.changeSource))
  }

  class AudioSwitcher {
    /** `sink_switcher`, absent unless `audio.change_sink`. */
    const sink: Option<StreamSwitcher>
    /** `source_switcher`, absent unless `audio.change_source`. */
    const source: Option<StreamSwitcher>

    /** The switchers and their output loggers. */
    ghost function Repr(): set<object>
    {
      (if sink.Some? then {sink.value, sink.value.logger} else {}) +
      (if source.Some? then {source.value, source.value.logger} else {})
    }

    /** Each present switcher is valid and has its role; the two share nothing. */
    ghost predicate Valid()
      reads Repr()
    {
      (sink.Some? ==> sink.value.role == Sinks && sink.value.Valid()) &&
      (source.Some? ==> source.value.role == Sources && source.value.Valid()) &&
      (sink.Some? && source.Some? ==> sink.value != source.value && sink.value.logger != source.value.logger)
    }

    constructor (sink: Option<StreamSwitcher>, source: Option<StreamSwitcher>)
      requires sink.Some? ==> sink.value.role == Sinks && sink.value.Valid()
      requires source.Some? ==> source.value.role == Sources && source.value.Valid()
      requires sink.Some? && source.Some? ==> sink.value != source.value && sink.value.logger != source.value.logger
      ensures Valid() && this.sink == sink && this.source == source
    {
      this.sink, this.source := sink, source;
    }

    /**
     * `switch_to_vr`: the sink switcher switches to its VR sink, then the source switcher to
     * its VR source. `sinks` and `sources` are what the audio server answers each of them.
     */
    method SwitchToVr(sinks: World, sources: World) returns (error: Option<SwitchError>)
      requires Valid()
      modifies Repr()
      ensures Valid()
      ensures sink.Some? ==>
                var x := VrSpec(Sinks, sink.value.settings, sink.value.matches, old(sink.value.failures), sinks);
                sink.value.trace == old(sink.value.trace) + x.1.events && sink.value.failures == x.1.failures &&
                sink.value.vrStream == (if x.0.Success? then x.0.value else old(sink.value.vrStream))
      ensures sink.Some? && VrSpec(Sinks, sink.value.settings, sink.value.matches, old(sink.value.failures), sinks).1.error.Some? ==>
                error == VrSpec(Sinks, sink.value.settings, sink.value.matches, old(sink.value.failures), sinks).1.error &&
                (source.Some? ==> source.value.trace == old(source.value.trace) && source.value.failures == old(source.value.failures))
      ensures (sink.None? || VrSpec(Sinks, sink.value.settings, sink.value.matches, old(sink.value.failures), sinks).1.error.None?) ==>
                if source.Some? then
                  var y := VrSpec(Sources, source.value.settings, source.value.matches, old(source.value.failures), sources);
                  source.value.trace == old(source.value.trace) + y.1.events && source.value.failures == y.1.failures &&
                  error == y.1.error
                else error.None?
    {
      error := None;
      if sink.Some? {
        error := sink.value.SwitchToVr(sinks);
        if error.Some? {
          return;
        }
      }
      if source.Some? {
        error := source.value.SwitchToVr(sources);
      }
    }

    /**
     * `switch_to_normal`: the sink switcher switches to its normal sink, then the source
     * switcher to its normal source; a switcher without a normal endpoint does nothing.
     */
    method SwitchToNormal(sinks: World, sources: World) returns (error: Option<SwitchError>)
      requires Valid()
      modifies Repr()
      ensures Valid()
      ensures sink.Some? && sink.value.normalStream.Some? ==>
                var x := SwitchSpec(Sinks, sink.value.settings, sink.value.matches, old(sink.value.failures),
                                    sink.value.normalStream.value, Normal, sinks);
                sink.value.trace == old(sink.value.trace) + x.events && sink.value.failures == x.failures
      ensures sink.Some? && sink.value.normalStream.None? ==>
                sink.value.trace == old(sink.value.trace) && sink.value.failures == old(sink.value.failures)
      ensures sink.Some? && sink.value.normalStream.Some? &&
              SwitchSpec(Sinks, sink.value.settings, sink.value.matches, old(sink.value.failures),
                         sink.value.normalStream.value, Normal, sinks).error.Some? ==>
                error == SwitchSpec(Sinks, sink.value.settings, sink.value.matches, old(sink.value.failures),
                                    sink.value.normalStream.value, Normal, sinks).error &&
                (source.Some? ==> source.value.trace == old(source.value.trace) && source.value.failures == old(source.value.failures))
      ensures (sink.None? || sink.value.normalStream.None? ||
               SwitchSpec(Sinks, sink.value.settings, sink.value.matches, old(sink.value.failures),
                          sink.value.normalStream.value, Normal, sinks).error.None?) ==>
                if source.Some? then
                  if source.value.normalStream.Some? then
                    var y := PassSpec(Sources, source.value.settings, source.value.matches, old(source.value.failures),
                                      source.value.normalStream.value, sources);
                    source.value.trace == old(source.value.trace) + y.events && source.value.failures == y.failures &&
                    error == y.error
                  else
                    source.value.trace == old(source.value.trace) && source.value.failures == old(source.value.failures) &&
                    error.None?
                else error.None?
    {
      error := None;
      if sink.Some? {
        error := sink.value.SwitchToNormal(sinks);
        if error.Some? {
          return;
        }
      }
      if source.Some? {
        error := source.value.SwitchToNormal(sources);
      }
    }
  }

  /**
   * `AudioSwitcher.__init__`: open the sink switcher when `audio.change_sink` is set, then
   * the source switcher when `audio.change_source` is set. The first switcher that cannot be
   * opened raises, and its error is the result.
   */
  method OpenAudio(s: AudioSettings, m: Matcher, sinks: Opening, sources: Opening) returns (r: Result<AudioSwitcher, SwitchError>)
    ensures r.Success? <==> Switchers(s, m, sinks, sources).Success?
    ensures r.Failure? ==> r.error == Switchers(s, m, sinks, sources).error
    ensures r.Success? ==>
              fresh(r.value) && r.value.Valid() &&
              (r.value.sink.Some?, r.value.source.Some?) == Switchers(s, m, sinks, sources).value &&
              (r.value.sink.Some? ==>
                 fresh(r.value.sink.value) &&
                 (r.value.sink.value.normalStream, r.value.sink.value.vrStream) ==
                   Endpoints(Sinks, s, m, sinks.streams, sinks.info).value &&
                 r.value.sink.value.failures == [] && r.value.sink.value.trace == OpeningEvents(Sinks, s)) &&
              (r.value.source.Some? ==>
                 fresh(r.value.source.value) &&
                 (r.value.source.value.normalStream, r.value.source.value.vrStream) ==
                   Endpoints(Sources, s, m, sources.streams, sources.info).value &&
                 r.value.source.value.failures == [] && r.value.source.value.trace == OpeningEvents(Sources, s))
  {
    var sink: Option<StreamSwitcher> := None;
    if s.changeSink {
      var made := Open(Sinks, s, m, sinks.streams, sinks.info);
      if made.Failure? {
        return Failure(made.error);
      }
      sink := Some(made.value);
    }
    var source: Option<StreamSwitcher> := None;
    if s.changeSource {
      var made := Open(Sources, s, m, sources.streams, sources.info);
      if made.Failure? {
        return Failure(made.error);
      }
      source := Some(made.value);
    }
    var switcher := new AudioSwitcher(sink, source);
    return Success(switcher);
  }
}
