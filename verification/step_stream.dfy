/** One request's events: patches vocoded as they land, or the whole utterance at the end.  Either way
    the client gets the one-shot waveform and then exactly one `Done`.
 */
module StepStream {
  import opened Arithmetic
  import opened Decoder
  import DecoderLocality
  import opened Lstm
  import opened Packing
  import opened ReceptiveField
  import opened VocoderStream

  datatype Event = Audio(wav: seq<Sample>) | Done

  /** All the audio of a list of events. */
  function Wave(events: seq<Event>): seq<Sample> {
    if events == [] then []
    else
      var before := Wave(events[..|events| - 1]);
      if events[|events| - 1].Audio? then before + events[|events| - 1].wav else before
  }

  lemma WaveSnoc(events: seq<Event>, e: Event)
    ensures Wave(events + [e]) == Wave(events) + (if e.Audio? then e.wav else [])
  {
    assert (events + [e])[..|events|] == events;
  }

  lemma AllAudioSnoc(events: seq<Event>, chunk: seq<Sample>)
    requires AllAudio(events) && chunk != []
    ensures AllAudio(events + [Audio(chunk)])
  {
  }

  lemma AllAudioSplit(a: seq<Event>, b: seq<Event>)
    requires AllAudio(a) && AllAudio(b)
    ensures AllAudio(a + b)
  {
  }

  lemma WaveNothing()
    ensures Wave([]) == [] && AllAudio([])
  {
  }

  lemma FlatNothing<T>(ss: seq<seq<T>>)
    ensures Flat(ss[..0]) == []
  {
  }

  lemma {:induction false} WaveSplit(a: seq<Event>, b: seq<Event>)
    ensures Wave(a + b) == Wave(a) + Wave(b)
    decreases |b|
  {
    if b == [] {
      assert a + b == a;
    } else {
      var last := |b| - 1;
      assert (a + b)[..|a + b| - 1] == a + b[..last];
      WaveSplit(a, b[..last]);
    }
  }

  /** Only audio, none of it empty. */
  predicate AllAudio(events: seq<Event>) {
    forall i :: 0 <= i < |events| ==> events[i].Audio? && events[i].wav != []
  }

  /** Non-empty audio, then exactly one `Done`. */
  predicate Finished(events: seq<Event>) {
    events != [] && events[|events| - 1] == Done && AllAudio(events[..|events| - 1])
  }

  function Silence(v: Vocoder, n: nat): (r: seq<Sample>)
    ensures |r| == n
  {
    seq(n, _ => v.net.zero)
  }

  lemma SilenceSplit(v: Vocoder, a: nat, b: nat)
    ensures Silence(v, a) + Silence(v, b) == Silence(v, a + b)
  {
  }

  lemma {:induction false} FlatLength(ps: seq<seq<Sample>>, n: nat)
    requires forall i :: 0 <= i < |ps| ==> |ps[i]| == n
    ensures |Flat(ps)| == |ps| * n
    decreases |ps|
  {
    if ps != [] {
      FlatLength(ps[..|ps| - 1], n);
      MulAdd(|ps| - 1, 1, n);
    }
  }

  /** The waveform of an utterance has a fixed number of samples per patch. */
  lemma WaveformLength(v: Vocoder, ps: seq<seq<Sample>>, n: nat)
    requires v.Valid() && forall i :: 0 <= i < |ps| ==> |ps[i]| == n
    ensures |v.Waveform(Flat(ps))| == |ps| * (v.hop * n)
  {
    hide Decode, Rate, Reaches, Flat, Vocoder.Waveform;
    FlatLength(ps, n);
    DecodeLengthOf(v, Flat(ps));
    MulAssociative(|ps|, n, v.hop);
  }

  lemma DecodeLengthOf(v: Vocoder, z: seq<Sample>)
    requires v.Valid()
    ensures |v.Waveform(z)| == |z| * v.hop
  {
    hide Decode, Rate, Reaches;
    DecoderLocality.DecodeLength(v.net, v.Inputs(z, v.Start()));
  }

  /** The per-request state the event loop works on. */
  class Request {
    const v: Vocoder
    const patchSize: nat
    const stream: bool
    const vocode: bool
    var latents: seq<seq<Sample>>
    var vocoded: nat
    var vocoder: BigVganStream?

    /** The streaming vocoder, once made, was fed exactly the patches counted as vocoded. */
    ghost predicate Valid()
      reads this, vocoder
    {
      && v.Valid() && patchSize >= 1
      && (forall i :: 0 <= i < |latents| ==> |latents[i]| == patchSize)
      && vocoded <= |latents|
      && (vocoder != null ==>
            stream && vocode && vocoder.v == v && vocoder.chunkSize == patchSize
            && vocoder.fed == Flat(latents[..vocoded]) && vocoder.Streaming())
      && (vocoder == null && vocode ==> vocoded == 0)
      && (!stream ==> vocoded == 0)
    }

    /** What the client has been sent. */
    ghost function Sent(): seq<Sample>
      reads this, vocoder
      requires Valid()
    {
      if vocoder != null then vocoder.Delivered() else Silence(v, vocoded * (v.hop * patchSize))
    }

    constructor (v: Vocoder, patchSize: nat, stream: bool, vocode: bool)
      requires v.Valid() && patchSize >= 1
      ensures Valid() && this.v == v && this.patchSize == patchSize && this.stream == stream && this.vocode == vocode
      ensures latents == [] && vocoder == null && Sent() == []
    {
      this.v, this.patchSize, this.stream, this.vocode := v, patchSize, stream, vocode;
      latents, vocoded, vocoder := [], 0, null;
    }

    /** A patch lands. */
    method Emit(patch: seq<Sample>)
      requires Valid() && |patch| == patchSize
      modifies this`latents
      ensures Valid() && latents == old(latents) + [patch] && Sent() == old(Sent())
    {
      latents := latents + [patch];
      assert latents[..vocoded] == old(latents)[..vocoded];
    }

    /** Vocodes the next patch, making the stream state on first use. */
    method VocodeNext() returns (chunk: seq<Sample>)
      requires Valid() && stream && vocoded < |latents|
      modifies this`vocoded, this`vocoder, vocoder
      ensures Valid() && vocoded == old(vocoded) + 1 && (vocode ==> vocoder != null)
      ensures vocoder == old(vocoder) || fresh(vocoder)
      ensures Sent() == old(Sent()) + chunk
    {
      hide Vocoder.Inputs, Vocoder.Valid, VocoderStream.BigVganStream.Valid, Decode, Rate, Reaches, LeftContext,
           Frames, Flat;
      var patch := latents[vocoded];
      StartStep(latents, vocoded);
      if vocode {
        if vocoder == null {
          vocoder := new BigVganStream(v, patchSize);
          FlatNothing(latents);
        }
        ghost var before := vocoder.Delivered();
        var r := vocoder.StreamStep(patch);
        chunk := r.value;
      } else {
        chunk := Silence(v, v.hop * patchSize);
        SilenceSplit(v, vocoded * (v.hop * patchSize), v.hop * patchSize);
        MulAdd(vocoded, 1, v.hop * patchSize);
      }
      vocoded := vocoded + 1;
    }

    /** Vocodes every patch that has landed since. */
    method VocodeNew() returns (events: seq<Event>)
      requires Valid() && stream
      modifies this`vocoded, this`vocoder, vocoder
      ensures Valid() && vocoded == |latents| && (vocode && latents != [] ==> vocoder != null)
      ensures vocoder == old(vocoder) || fresh(vocoder)
      ensures AllAudio(events) && Sent() == old(Sent()) + Wave(events)
    {
      hide *;
      ghost var sent := Sent();
      events := [];
      Counters();
      WaveNothing();
      assert sent + [] == sent;
      while vocoded < |latents|
        invariant Valid() && vocoded <= |latents|
        invariant vocoder == old(vocoder) || fresh(vocoder)
        invariant Sent() == sent + Wave(events)
        invariant AllAudio(events)
        decreases |latents| - vocoded
      {
        ghost var wave := Wave(events);
        var chunk := VocodeNext();
        assert sent + wave + chunk == sent + (wave + chunk);
        if |chunk| != 0 {
          WaveSnoc(events, Audio(chunk));
          AllAudioSnoc(events, chunk);
          events := events + [Audio(chunk)];
        }
        Counters();
      }
      Counters();
    }

    lemma Counters()
      requires Valid()
      ensures vocoded <= |latents|
      ensures vocode && vocoded > 0 ==> vocoder != null
    {
    }

    /** The tail of the stream: nothing if no patch was ever vocoded. */
    method VocodeFlush() returns (final: seq<Sample>)
      requires Valid() && stream && vocoded == |latents| && (vocode && latents != [] ==> vocoder != null)
      modifies vocoder
      ensures old(Sent()) + final == Utterance(v, latents, patchSize, vocode)
    {
      hide Vocoder.Inputs, Decode, Rate, Reaches, LeftContext, VocoderStream.Frames;
      if vocoder == null {
        final := [];
        if vocode { DecodeLengthOf(v, []); }
      } else {
        assert latents[..vocoded] == latents;
        var r := vocoder.Flush();
        final := r.value;
      }
    }

    /** One scheduler step's events for this request. */
    method StepStream(stopped: bool) returns (events: seq<Event>)
      requires Valid()
      modifies this`vocoded, this`vocoder, vocoder
      ensures vocoder == old(vocoder) || fresh(vocoder)
      ensures !stopped ==> Valid() && AllAudio(events) && Sent() == old(Sent()) + Wave(events)
      ensures stopped ==> Finished(events) && old(Sent()) + Wave(events) == Utterance(v, latents, patchSize, vocode)
    {
      hide Sent, Flat, Utterance, Silence, Vocoder.Valid, VocoderStream.BigVganStream.Valid, Wave, Finished;
      ghost var sent := Sent();
      if stream {
        events := VocodeNew();
        if stopped {
          ghost var wave := Wave(events);
          var final := VocodeFlush();
          events := Ending(events, final);
          assert sent + (wave + final) == sent + wave + final;
        }
      } else if stopped {
        var wav := VocodeAll();
        events := Ending([], wav);
        WaveNothing();
        assert [] + wav == wav && sent + wav == wav;
      } else {
        events := [];
        WaveNothing();
        assert sent + Wave([]) == sent;
      }
    }

    /** The whole utterance at once. */
    method VocodeAll() returns (wav: seq<Sample>)
      requires Valid() && !stream
      ensures Sent() == [] && wav == Utterance(v, latents, patchSize, vocode)
    {
      hide Vocoder.Inputs, Decode, Rate, Reaches;
      OneShot();
      if vocode {
        wav := if |latents| > 0 then v.Waveform(Flat(latents)) else [];
      } else {
        wav := Silence(v, v.hop * patchSize * |latents|);
      }
    }

    /** Nothing is sent before the end without streaming. */
    lemma OneShot()
      requires Valid() && !stream
      ensures Sent() == []
      ensures latents == [] && vocode ==> Utterance(v, latents, patchSize, vocode) == []
      ensures v.hop * patchSize * |latents| == |latents| * (v.hop * patchSize)
    {
      hide Vocoder.Inputs, Decode, Rate, Reaches;
      DecodeLengthOf(v, []);
    }
  }

  /** What a request should be sent: its one-shot waveform, or as much silence when profiling. */
  function Utterance(v: Vocoder, latents: seq<seq<Sample>>, patchSize: nat, vocode: bool): seq<Sample>
    requires v.Valid()
  {
    if vocode then v.Waveform(Flat(latents)) else Silence(v, |latents| * (v.hop * patchSize))
  }

  /** The last audio, if any, and `Done`. */
  function Ending(events: seq<Event>, final: seq<Sample>): (r: seq<Event>)
    requires AllAudio(events)
    ensures Finished(r) && Wave(r) == Wave(events) + final
  {
    var all := if |final| != 0 then events + [Audio(final)] else events;
    WaveSnoc(events, Audio(final));
    WaveSnoc(all, Done);
    assert (all + [Done])[..|all|] == all;
    all + [Done]
  }

  /** A whole request, whatever the number of patches that land in each step: streaming or not, the
      client gets the same waveform, in non-empty pieces, and one `Done` after it. */
  method RunRequest(v: Vocoder, patchSize: nat, stream: bool, vocode: bool, steps: seq<seq<seq<Sample>>>)
    returns (events: seq<Event>)
    requires v.Valid() && patchSize >= 1 && steps != []
    requires forall i, j :: 0 <= i < |steps| && 0 <= j < |steps[i]| ==> |steps[i][j]| == patchSize
    ensures Finished(events)
    ensures Wave(events) == Utterance(v, Flat(steps), patchSize, vocode)
  {
    hide Flat, Utterance, Silence, Vocoder.Valid, VocoderStream.BigVganStream.Valid, Finished, AllAudio, Wave;
    hide Request.Valid, Request.Sent;
    WaveNothing();
    var st := new Request(v, patchSize, stream, vocode);
    events := [];
    FlatNothing(steps);
    for i := 0 to |steps| - 1
      invariant fresh(st) && (st.vocoder != null ==> fresh(st.vocoder))
      invariant st.Valid() && st.latents == Flat(steps[..i])
      invariant AllAudio(events) && st.Sent() == Wave(events)
    {
      EmitAll(st, steps[i]);
      StartStep(steps, i);
      var more := st.StepStream(false);
      WaveSplit(events, more);
      AllAudioSplit(events, more);
      events := events + more;
    }
    var last := |steps| - 1;
    EmitAll(st, steps[last]);
    StartStep(steps, last);
    assert steps[..last + 1] == steps;
    var more := st.StepStream(true);
    WaveSplit(events, more);
    JoinFinished(events, more);
    events := events + more;
  }

  lemma JoinFinished(a: seq<Event>, b: seq<Event>)
    requires AllAudio(a) && Finished(b)
    ensures Finished(a + b)
  {
    assert (a + b)[..|a + b| - 1] == a + b[..|b| - 1];
  }

  method EmitAll(st: Request, patches: seq<seq<Sample>>)
    requires st.Valid() && forall j :: 0 <= j < |patches| ==> |patches[j]| == st.patchSize
    modifies st`latents
    ensures st.Valid() && st.latents == old(st.latents) + patches && st.Sent() == old(st.Sent())
  {
    for j := 0 to |patches|
      invariant st.Valid() && st.latents == old(st.latents) + patches[..j] && st.Sent() == old(st.Sent())
    {
      st.Emit(patches[j]);
    }
  }
}
