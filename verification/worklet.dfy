/** The audio tap: microphone blocks in, 960-sample frames out, with a push-to-talk gate. */
module Worklet {
  import opened Options

  type Sample = real

  const FRAME: nat := 960

  /** Inputs, each a list of channels, as the audio graph hands them over. */
  type Inputs = seq<seq<seq<Sample>>>

  datatype Happening = Message(kind: string, active: bool) | Block(inputs: Inputs)

  /** The first channel of the first input. */
  function Mono(inputs: Inputs): Option<seq<Sample>> {
    if |inputs| > 0 && |inputs[0]| > 0 then Some(inputs[0][0]) else None
  }

  // ---------- the processor ----------

  /** `failed` once a block overran the fresh buffer: the graph calls a throwing processor no more. */
  datatype Tap = Tap(pending: seq<Sample>, transmitting: bool, posted: seq<seq<Sample>>, failed: bool)

  const START: Tap := Tap([], true, [], false)

  function Feed(t: Tap, x: seq<Sample>): Tap {
    var all := t.pending + x;
    if |all| < FRAME then t.(pending := all)
    else
      var posted, rest := t.posted + [all[..FRAME]], all[FRAME..];
      if |rest| > FRAME then Tap([], t.transmitting, posted, true) else Tap(rest, t.transmitting, posted, false)
  }

  function OnBlock(t: Tap, inputs: Inputs): Tap {
    match Mono(inputs)
    case None => t
    case Some(x) => if t.transmitting then Feed(t, x) else t.(pending := [])
  }

  function Step(t: Tap, h: Happening): Tap {
    if t.failed then t
    else
      match h
      case Message(kind, active) => if kind == "ptt" then t.(transmitting := active) else t
      case Block(inputs) => OnBlock(t, inputs)
  }

  function Run(hs: seq<Happening>): Tap {
    if hs == [] then START else Step(Run(hs[..|hs| - 1]), hs[|hs| - 1])
  }

  // ---------- what was said ----------

  /** The stretches of speech on the first channel: those a closed gate has ended, and the one going on. */
  datatype Speech = Speech(ended: seq<seq<Sample>>, current: seq<Sample>, on: bool)

  function Hear(s: Speech, h: Happening): Speech {
    match h
    case Message(kind, active) => if kind == "ptt" then s.(on := active) else s
    case Block(inputs) =>
      if inputs == [] || inputs[0] == [] then s
      else if s.on then s.(current := s.current + inputs[0][0])
      else Speech(s.ended + [s.current], [], false)
  }

  function Heard(hs: seq<Happening>): Speech {
    if hs == [] then Speech([], [], true) else Hear(Heard(hs[..|hs| - 1]), hs[|hs| - 1])
  }

  /** A stretch cut into whole frames. */
  function Frames(s: seq<Sample>): seq<seq<Sample>> {
    if |s| < FRAME then [] else [s[..FRAME]] + Frames(s[FRAME..])
  }

  /** What is left of a stretch behind its last whole frame. */
  function Tail(s: seq<Sample>): seq<Sample> {
    if |s| < FRAME then s else Tail(s[FRAME..])
  }

  function FramesOfAll(ss: seq<seq<Sample>>): seq<seq<Sample>> {
    if ss == [] then [] else FramesOfAll(ss[..|ss| - 1]) + Frames(ss[|ss| - 1])
  }

  function Flat(ss: seq<seq<Sample>>): seq<Sample> {
    if ss == [] then [] else ss[0] + Flat(ss[1..])
  }

  lemma FlatPush(x: seq<Sample>, ss: seq<seq<Sample>>)
    ensures Flat([x] + ss) == x + Flat(ss)
  {
    assert ([x] + ss)[1..] == ss;
  }

  /** Cutting loses nothing: the frames in order, then the tail, are the stretch. */
  lemma {:induction false} FramesAreTheStretch(s: seq<Sample>)
    ensures Flat(Frames(s)) + Tail(s) == s
    ensures forall i :: 0 <= i < |Frames(s)| ==> |Frames(s)[i]| == FRAME
    ensures |Tail(s)| < FRAME && |s| == FRAME * |Frames(s)| + |Tail(s)|
    decreases |s|
  {
    if |s| >= FRAME {
      var rest := s[FRAME..];
      FramesAreTheStretch(rest);
      FlatPush(s[..FRAME], Frames(rest));
      assert s == s[..FRAME] + (Flat(Frames(rest)) + Tail(rest));
    }
  }

  /** Samples may arrive in any pieces: only the tail and the new piece decide what comes next. */
  lemma {:induction false} FramesInPieces(s: seq<Sample>, x: seq<Sample>)
    ensures Frames(s + x) == Frames(s) + Frames(Tail(s) + x)
    ensures Tail(s + x) == Tail(Tail(s) + x)
    decreases |s|
  {
    if |s| >= FRAME {
      assert (s + x)[..FRAME] == s[..FRAME] && (s + x)[FRAME..] == s[FRAME..] + x;
      FramesInPieces(s[FRAME..], x);
    }
  }

  predicate SmallBlock(h: Happening) {
    h.Block? && Mono(h.inputs).Some? ==> |Mono(h.inputs).value| <= FRAME
  }

  predicate SmallBlocks(hs: seq<Happening>) {
    forall i :: 0 <= i < |hs| ==> SmallBlock(hs[i])
  }

  /** The processor's state is the speech so far, cut into frames. */
  predicate Tracks(t: Tap, s: Speech) {
    && !t.failed && t.transmitting == s.on
    && t.posted == FramesOfAll(s.ended) + Frames(s.current)
    && t.pending == Tail(s.current)
  }

  lemma FeedTracks(t: Tap, s: Speech, x: seq<Sample>)
    requires Tracks(t, s) && |x| <= FRAME
    ensures Tracks(Feed(t, x), s.(current := s.current + x))
  {
    hide FramesOfAll, Flat;
    FramesInPieces(s.current, x);
    FramesAreTheStretch(s.current);
    var all := t.pending + x;
    if |all| >= FRAME {
      OneFrame(all);
    }
  }

  lemma OneFrame(all: seq<Sample>)
    requires FRAME <= |all| < 2 * FRAME
    ensures Frames(all) == [all[..FRAME]] && Tail(all) == all[FRAME..]
  {
    assert Frames(all[FRAME..]) == [];
  }

  lemma GateTracks(t: Tap, s: Speech)
    requires Tracks(t, s)
    ensures Tracks(t.(pending := []), Speech(s.ended + [s.current], [], s.on))
  {
    var ended := s.ended + [s.current];
    assert ended[..|ended| - 1] == s.ended;
    assert FramesOfAll(ended) + Frames([]) == FramesOfAll(ended);
  }

  /** However blocks of up to 960 samples and gate changes are interleaved, what is posted is every stretch of
      speech cut into frames, in order, and what is pending is the tail of the current one. */
  lemma {:induction false} PostedIsTheSpeech(hs: seq<Happening>)
    requires SmallBlocks(hs)
    ensures Tracks(Run(hs), Heard(hs))
    decreases |hs|
  {
    hide Frames, Tail, FramesOfAll, Feed;
    if hs == [] {
      StartTracks();
    } else {
      var front, h := hs[..|hs| - 1], hs[|hs| - 1];
      assert SmallBlock(h);
      PostedIsTheSpeech(front);
      var t, s := Run(front), Heard(front);
      if h.Block? && Mono(h.inputs).Some? {
        if s.on {
          FeedTracks(t, s, Mono(h.inputs).value);
        } else {
          GateTracks(t, s);
        }
      }
    }
  }

  lemma StartTracks()
    ensures Tracks(START, Speech([], [], true))
  {
  }

  function Total(ss: seq<seq<Sample>>): nat {
    if ss == [] then 0 else Total(ss[..|ss| - 1]) + |ss[|ss| - 1]|
  }

  function Lost(ss: seq<seq<Sample>>): nat {
    if ss == [] then 0 else Lost(ss[..|ss| - 1]) + |Tail(ss[|ss| - 1])|
  }

  lemma {:induction false} FramesOfAllCount(ss: seq<seq<Sample>>)
    ensures Total(ss) == FRAME * |FramesOfAll(ss)| + Lost(ss)
    ensures forall i :: 0 <= i < |FramesOfAll(ss)| ==> |FramesOfAll(ss)[i]| == FRAME
    ensures Lost(ss) <= (FRAME - 1) * |ss|
    decreases |ss|
  {
    if ss != [] {
      FramesOfAllCount(ss[..|ss| - 1]);
      FramesAreTheStretch(ss[|ss| - 1]);
    }
  }

  /** Conservation: every accepted sample is in a posted 960-sample frame, pending, or among the fewer than 960 a
      closing gate discarded. */
  lemma SamplesAreConserved(hs: seq<Happening>)
    requires SmallBlocks(hs)
    ensures var t, s := Run(hs), Heard(hs);
      && !t.failed && |t.pending| < 960
      && (forall i :: 0 <= i < |t.posted| ==> |t.posted[i]| == 960)
      && Total(s.ended) + |s.current| == 960 * |t.posted| + |t.pending| + Lost(s.ended)
      && Lost(s.ended) <= 959 * |s.ended|
  {
    hide Frames, Tail, FramesOfAll, Total, Lost, Run, Heard;
    PostedIsTheSpeech(hs);
    var t, s := Run(hs), Heard(hs);
    FramesOfAllCount(s.ended);
    FramesAreTheStretch(s.current);
    assert |t.posted| == |FramesOfAll(s.ended)| + |Frames(s.current)|;
  }

  /** The 960-sample bound is exact: blocks of n samples leave room in the buffer, wherever it stands, exactly when
      n is at most 960. */
  lemma BlockBoundIsExact(n: nat)
    ensures n <= FRAME <==>
      forall t: Tap, x: seq<Sample> :: |t.pending| < FRAME && !t.failed && |x| == n ==>
        !Feed(t, x).failed && |Feed(t, x).pending| < FRAME
  {
    if n > FRAME {
      var t := START.(pending := seq(FRAME - 1, i => 0.0));
      var x := seq(n, i => 0.0);
      assert |t.pending + x| >= 2 * FRAME;
      assert Feed(t, x).failed || |Feed(t, x).pending| == FRAME;
    }
  }

  // ---------- the object ----------

  /** The processor as the audio thread runs it. Posted buffers are handed over, so it must never touch them again. */
  class SttTapProcessor {
    var buffer: array<Sample>
    var offset: nat
    var transmitting: bool
    var port: seq<array<Sample>>
    ghost var sent: seq<seq<Sample>>

    ghost predicate Valid()
      reads this, buffer, port
    {
      && buffer.Length == FRAME && offset <= FRAME && buffer !in port
      && |sent| == |port|
      && (forall i :: 0 <= i < |port| ==> port[i][..] == sent[i])
    }

    ghost function State(failed: bool): Tap
      requires Valid()
      reads this, buffer, port
    {
      Tap(buffer[..offset], transmitting, sent, failed)
    }

    constructor ()
      ensures Valid() && fresh(buffer) && port == [] && State(false) == START
    {
      buffer := new Sample[FRAME](_ => 0.0);
      offset := 0;
      transmitting := true;
      port, sent := [], [];
    }

    method OnMessage(kind: string, active: bool)
      requires Valid()
      modifies this`transmitting
      ensures Valid() && State(false) == Step(old(State(false)), Message(kind, active))
    {
      if kind == "ptt" {
        transmitting := active;
      }
    }

    /** Copy samples into the buffer; out of range, nothing is copied. */
    method SetBuffer(x: seq<Sample>, at: nat) returns (ok: bool)
      requires Valid()
      modifies buffer
      ensures Valid() && ok == (at + |x| <= buffer.Length)
      ensures !ok ==> buffer[..] == old(buffer[..])
      ensures ok ==> buffer[..] == old(buffer[..])[..at] + x + old(buffer[..])[at + |x|..]
    {
      ok := at + |x| <= buffer.Length;
      if ok {
        forall i | 0 <= i < |x| {
          buffer[at + i] := x[i];
        }
      }
    }

    /** Hand the full buffer over and go on with a fresh one. */
    method PostBuffer()
      requires Valid() && offset == FRAME
      modifies this
      ensures Valid() && fresh(buffer) && offset == 0 && transmitting == old(transmitting)
      ensures port == old(port) + [old(buffer)] && sent == old(sent) + [old(buffer[..])]
    {
      port, sent := port + [buffer], sent + [buffer[..]];
      buffer := new Sample[FRAME](_ => 0.0);
      offset := 0;
    }

    /** One block. Gives false when it throws. */
    method Process(inputs: Inputs) returns (ok: bool)
      requires Valid()
      modifies this, buffer
      ensures Valid() && State(!ok) == Step(old(State(false)), Block(inputs))
      ensures old(port) <= port && forall a :: a in old(port) ==> a[..] == old(a[..])
    {
      if |inputs| == 0 || |inputs[0]| == 0 {
        return true;
      }
      var input := inputs[0][0];
      if !transmitting {
        offset := 0;
        return true;
      }
      ghost var all := buffer[..offset] + input;
      var remaining := buffer.Length - offset;
      var toCopy := if |input| < remaining then |input| else remaining;
      var copied := SetBuffer(input[..toCopy], offset);
      offset := offset + toCopy;
      assert buffer[..offset] == all[..offset];
      if offset >= buffer.Length {
        assert buffer[..] == all[..FRAME];
        PostBuffer();
        if toCopy < |input| {
          var leftover := input[toCopy..];
          assert leftover == all[FRAME..];
          var fits := SetBuffer(leftover, 0);
          if !fits {
            return false;
          }
          offset := |leftover|;
          assert buffer[..offset] == leftover;
        }
      }
      return true;
    }
  }
}
