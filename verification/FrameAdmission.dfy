/**
 The preview cadence cap and lazy conversion of the capture backend (capture/qt_ugreen.py): which driver callbacks
 are admitted, and that each admitted frame is converted at most once.
 */
module FrameAdmission {
  import opened Basics

  // ---- the cadence cap, over a whole stream -------------------------------------------------

  const INTERVAL_NS := 33_333_333
  const TOLERANCE_NS := 1_000_000
  const GAP_NS := INTERVAL_NS - TOLERANCE_NS

  /** A callback's stream time in nanoseconds; a frame object without one has None. */
  type Stamp = Option<int>

  predicate TooSoon(last: Option<int>, stamp: Stamp) {
    last.Some? && stamp.Some? && last.value <= stamp.value && stamp.value - last.value + TOLERANCE_NS < INTERVAL_NS
  }

  /** The time of the last admitted frame that has one. */
  function LastAdmitted(stamps: seq<Stamp>): Option<int> {
    if stamps == [] then None
    else
      var last, stamp := LastAdmitted(stamps[..|stamps| - 1]), stamps[|stamps| - 1];
      if stamp.None? || TooSoon(last, stamp) then last else stamp
  }

  /** The positions of the admitted callbacks. */
  function Admitted(stamps: seq<Stamp>): (r: seq<nat>)
    ensures |r| <= |stamps|
    ensures forall i :: 0 <= i < |r| ==> r[i] < |stamps|
  {
    if stamps == [] then []
    else
      var before := stamps[..|stamps| - 1];
      Admitted(before) + if TooSoon(LastAdmitted(before), stamps[|stamps| - 1]) then [] else [|stamps| - 1]
  }

  /** One more callback. */
  lemma AdmittedNext(stamps: seq<Stamp>, stamp: Stamp)
    ensures var last := LastAdmitted(stamps);
            && LastAdmitted(stamps + [stamp]) == (if stamp.None? || TooSoon(last, stamp) then last else stamp)
            && Admitted(stamps + [stamp])
               == (if TooSoon(last, stamp) then Admitted(stamps) else Admitted(stamps) + [|stamps|])
  {
    assert (stamps + [stamp])[..|stamps|] == stamps;
  }

  predicate Timed(stamps: seq<Stamp>) {
    forall k :: 0 <= k < |stamps| ==> stamps[k].Some?
  }

  predicate Ordered(stamps: seq<Stamp>)
    requires Timed(stamps)
  {
    forall i, j :: 0 <= i < j < |stamps| ==> stamps[i].value <= stamps[j].value
  }

  /** How many of the given positions are stamped within [from, from + span]. */
  function StampedWithin(stamps: seq<Stamp>, positions: seq<nat>, from: int, span: nat): (n: nat)
    requires Timed(stamps) && forall i :: 0 <= i < |positions| ==> positions[i] < |stamps|
    ensures n <= |positions|
  {
    if positions == [] then 0
    else
      var last := |positions| - 1;
      StampedWithin(stamps, positions[..last], from, span)
      + if from <= stamps[positions[last]].value <= from + span then 1 else 0
  }

  /** How many admitted frames are stamped within [from, from + span]. */
  function InWindow(stamps: seq<Stamp>, from: int, span: nat): (n: nat)
    requires Timed(stamps)
  {
    StampedWithin(stamps, Admitted(stamps), from, span)
  }

  lemma {:induction false} EarlierStampsCount(stamps: seq<Stamp>, positions: seq<nat>, from: int, span: nat)
    requires Timed(stamps) && stamps != [] && forall i :: 0 <= i < |positions| ==> positions[i] < |stamps| - 1
    ensures StampedWithin(stamps, positions, from, span)
         == StampedWithin(stamps[..|stamps| - 1], positions, from, span)
    decreases |positions|
  {
    if positions != [] {
      EarlierStampsCount(stamps, positions[..|positions| - 1], from, span);
    }
  }

  lemma NothingInWindow(from: int, span: nat)
    ensures InWindow([], from, span) == 0
  {
  }

  /** One more callback counts when it is admitted and within the window. */
  lemma WindowNext(stamps: seq<Stamp>, from: int, span: nat)
    requires Timed(stamps) && stamps != []
    ensures var before, time := stamps[..|stamps| - 1], stamps[|stamps| - 1].value;
            InWindow(stamps, from, span) == InWindow(before, from, span)
              + if !TooSoon(LastAdmitted(before), Some(time)) && from <= time <= from + span then 1 else 0
  {
    var before := stamps[..|stamps| - 1];
    EarlierStampsCount(stamps, Admitted(before), from, span);
    var last := |stamps| - 1;
    if TooSoon(LastAdmitted(before), stamps[last]) {
      assert Admitted(stamps) == Admitted(before);
    } else {
      assert Admitted(stamps) == Admitted(before) + [last];
      assert Admitted(stamps)[..|Admitted(before)|] == Admitted(before);
    }
  }

  lemma {:induction false} LastIsEarlier(stamps: seq<Stamp>, end: int)
    requires Timed(stamps) && (forall k :: 0 <= k < |stamps| ==> stamps[k].value <= end)
    ensures LastAdmitted(stamps).Some? ==> LastAdmitted(stamps).value <= end
  {
    if stamps != [] {
      LastIsEarlier(stamps[..|stamps| - 1], end);
    }
  }

  lemma {:induction false} WindowIsSpaced(stamps: seq<Stamp>, from: int, span: nat)
    requires Timed(stamps) && Ordered(stamps)
    ensures var n := InWindow(stamps, from, span);
            n > 0 ==>
              && LastAdmitted(stamps).Some? && LastAdmitted(stamps).value >= from + (n - 1) * GAP_NS
              && (n - 1) * GAP_NS <= span
  {
    hide Admitted, InWindow;
    if stamps == [] {
      NothingInWindow(from, span);
    } else {
      var before := stamps[..|stamps| - 1];
      assert Ordered(before);
      WindowNext(stamps, from, span);
      WindowIsSpaced(before, from, span);
      LastIsEarlier(before, stamps[|stamps| - 1].value);
    }
  }

  /** In stream-time order, any window of `span` nanoseconds admits at most 1 + span / 32,333,333 frames. */
  lemma WindowIsBounded(stamps: seq<Stamp>, from: int, span: nat)
    requires Timed(stamps) && Ordered(stamps)
    ensures InWindow(stamps, from, span) <= 1 + span / 32_333_333
  {
    WindowIsSpaced(stamps, from, span);
    var n := InWindow(stamps, from, span);
    if n > 0 {
      assert n - 1 <= span / GAP_NS;
    }
  }

  predicate Spaced(stamps: seq<Stamp>)
    requires Timed(stamps)
  {
    forall k :: 0 < k < |stamps| ==>
                  stamps[k].value < stamps[k - 1].value || stamps[k].value - stamps[k - 1].value >= 32_333_333
  }

  lemma {:induction false} AllAdmittedLast(stamps: seq<Stamp>)
    requires Timed(stamps) && stamps != [] && |Admitted(stamps)| == |stamps|
    ensures LastAdmitted(stamps) == stamps[|stamps| - 1]
  {
  }

  /** A timed source loses no frame exactly when every frame comes late enough after its predecessor, or goes back. */
  lemma {:induction false} NoneLostIff(stamps: seq<Stamp>)
    requires Timed(stamps)
    ensures |Admitted(stamps)| == |stamps| <==> Spaced(stamps)
  {
    if |stamps| > 0 {
      var before := stamps[..|stamps| - 1];
      NoneLostIff(before);
      if |stamps| > 1 && |Admitted(before)| == |before| {
        AllAdmittedLast(before);
      }
      assert Spaced(stamps) ==> Spaced(before);
    }
  }

  predicate CoveredBy(stamps: seq<Stamp>, k: nat, i: nat)
    requires Timed(stamps) && k < |stamps|
  {
    i < k && i in Admitted(stamps) && 0 <= stamps[k].value - stamps[i].value < 32_333_333
  }

  lemma {:induction false} LastIsAdmitted(stamps: seq<Stamp>)
    requires Timed(stamps) && LastAdmitted(stamps).Some?
    ensures exists i :: i in Admitted(stamps) && stamps[i] == LastAdmitted(stamps)
  {
    var before := stamps[..|stamps| - 1];
    if TooSoon(LastAdmitted(before), stamps[|stamps| - 1]) {
      LastIsAdmitted(before);
      var i :| i in Admitted(before) && before[i] == LastAdmitted(before);
      assert i in Admitted(stamps) && stamps[i] == LastAdmitted(stamps);
    } else {
      assert Admitted(stamps)[|Admitted(before)|] == |stamps| - 1;
      assert stamps[|stamps| - 1] == LastAdmitted(stamps);
    }
  }

  /** The cap starves nobody: a dropped frame follows an admitted one by less than 32,333,333 ns. */
  lemma {:induction false} DroppedIsCovered(stamps: seq<Stamp>, k: nat)
    requires Timed(stamps) && k < |stamps| && k !in Admitted(stamps)
    ensures exists i :: CoveredBy(stamps, k, i)
  {
    var before := stamps[..|stamps| - 1];
    assert forall i :: i in Admitted(before) ==> i in Admitted(stamps);
    var i: nat;
    if k < |before| {
      DroppedIsCovered(before, k);
      i :| CoveredBy(before, k, i);
    } else {
      assert !TooSoon(LastAdmitted(before), stamps[k]) ==> Admitted(stamps) == Admitted(before) + [k];
      assert k in Admitted(before) + [k];
      LastIsAdmitted(before);
      i :| i in Admitted(before) && before[i] == LastAdmitted(before);
    }
    assert CoveredBy(stamps, k, i);
  }

  // ---- conversions --------------------------------------------------------------------------

  /** What the driver's toImage()/copy() yields: an exception, or an image with a size. */
  datatype Image = Raises | NullImage | Sized(width: int, height: int)

  datatype Packet = Packet(frame: Id, width: int, height: int)

  datatype Conversion = Conversion(sequence: nat, packet: Option<Packet>)

  function Converted(frame: Id, image: Image): Option<Packet> {
    if image.Sized? && image.width > 0 && image.height > 0 then Some(Packet(frame, image.width, image.height)) else None
  }

  function Successes(conversions: seq<Conversion>): (n: nat)
    ensures n <= |conversions|
  {
    if conversions == [] then 0
    else Successes(conversions[..|conversions| - 1]) + if conversions[|conversions| - 1].packet.Some? then 1 else 0
  }

  /** The packet of the last conversion that succeeded. */
  function LatestPacket(conversions: seq<Conversion>): Option<Packet> {
    if conversions == [] then None
    else if conversions[|conversions| - 1].packet.Some? then conversions[|conversions| - 1].packet
    else LatestPacket(conversions[..|conversions| - 1])
  }

  predicate OncePerFrame(conversions: seq<Conversion>, admitted: nat) {
    && (forall i :: 0 <= i < |conversions| ==> 0 < conversions[i].sequence <= admitted)
    && (forall i, j :: 0 <= i < j < |conversions| ==> conversions[i].sequence < conversions[j].sequence)
  }

  lemma {:induction false} ConversionsAreFew(conversions: seq<Conversion>, admitted: nat)
    requires OncePerFrame(conversions, admitted)
    ensures |conversions| <= admitted
  {
    if conversions != [] {
      var last := conversions[|conversions| - 1];
      ConversionsAreFew(conversions[..|conversions| - 1], last.sequence - 1);
    }
  }

  /** Each packet shows the frame admitted under its sequence number. */
  predicate PacketsShow(conversions: seq<Conversion>, frames: seq<Id>, admitted: seq<nat>) {
    forall k :: 0 <= k < |conversions| && conversions[k].packet.Some? ==> Shows(conversions[k], frames, admitted)
  }

  predicate Shows(conversion: Conversion, frames: seq<Id>, admitted: seq<nat>)
    requires conversion.packet.Some?
  {
    && 0 < conversion.sequence <= |admitted| && admitted[conversion.sequence - 1] < |frames|
    && conversion.packet.value.frame == frames[admitted[conversion.sequence - 1]]
  }

  lemma PacketsStillShow(conversions: seq<Conversion>, frames: seq<Id>, admitted: seq<nat>, frame: Id, next: nat)
    requires PacketsShow(conversions, frames, admitted)
    ensures PacketsShow(conversions, frames + [frame], admitted)
    ensures PacketsShow(conversions, frames + [frame], admitted + [next])
  {
    forall k | 0 <= k < |conversions| && conversions[k].packet.Some?
      ensures Shows(conversions[k], frames + [frame], admitted)
      ensures Shows(conversions[k], frames + [frame], admitted + [next])
    {
      assert Shows(conversions[k], frames, admitted);
    }
  }

  /** What the conversion counters and the cached frame say of the conversions made. */
  predicate LogOk(conversions: seq<Conversion>, admitted: nat, attempted: nat, successes: nat, failures: nat,
                  latest: Option<Packet>)
  {
    && OncePerFrame(conversions, admitted)
    && attempted == (if conversions == [] then 0 else conversions[|conversions| - 1].sequence)
    && successes == Successes(conversions) && successes + failures == |conversions|
    && latest == LatestPacket(conversions)
  }

  lemma LogNext(conversions: seq<Conversion>, admitted: nat, attempted: nat, successes: nat, failures: nat,
                latest: Option<Packet>, packet: Option<Packet>)
    requires LogOk(conversions, admitted, attempted, successes, failures, latest) && attempted < admitted
    ensures LogOk(conversions + [Conversion(admitted, packet)], admitted, admitted,
                  if packet.Some? then successes + 1 else successes, if packet.Some? then failures else failures + 1,
                  if packet.Some? then packet else latest)
  {
    assert (conversions + [Conversion(admitted, packet)])[..|conversions|] == conversions;
  }

  /** The attempted sequence never passes the admitted one, and is 0 when nothing was converted. */
  lemma LogBounds(conversions: seq<Conversion>, admitted: nat, attempted: nat, successes: nat, failures: nat,
                  latest: Option<Packet>)
    requires LogOk(conversions, admitted, attempted, successes, failures, latest)
    ensures attempted <= admitted && (attempted == 0 ==> conversions == [] && latest == None)
    ensures LogOk(conversions, admitted + 1, attempted, successes, failures, latest)
  {
    assert OncePerFrame(conversions, admitted + 1);
    if conversions != [] {
      assert conversions[|conversions| - 1].sequence > 0;
    }
  }

  /** What the callback counters and the pending frame say of the callbacks received. */
  predicate CallbacksOk(frames: seq<Id>, stamps: seq<Stamp>, raw: nat, incoming: nat, dropped: nat,
                        last: Option<int>, pending: Option<Id>)
  {
    && |frames| == |stamps| == raw && incoming == |Admitted(stamps)| && raw == incoming + dropped
    && last == LastAdmitted(stamps)
    && pending == (if incoming == 0 then None else Some(frames[Admitted(stamps)[incoming - 1]]))
  }

  lemma CallbackDropped(frames: seq<Id>, stamps: seq<Stamp>, raw: nat, incoming: nat, dropped: nat,
                        last: Option<int>, pending: Option<Id>, frame: Id, stamp: Stamp)
    requires CallbacksOk(frames, stamps, raw, incoming, dropped, last, pending) && TooSoon(last, stamp)
    ensures Admitted(stamps + [stamp]) == Admitted(stamps)
    ensures CallbacksOk(frames + [frame], stamps + [stamp], raw + 1, incoming, dropped + 1, last, pending)
  {
    hide Admitted, LastAdmitted;
    AdmittedNext(stamps, stamp);
    if incoming > 0 {
      assert (frames + [frame])[Admitted(stamps)[incoming - 1]] == frames[Admitted(stamps)[incoming - 1]];
    }
  }

  lemma CallbackAdmitted(frames: seq<Id>, stamps: seq<Stamp>, raw: nat, incoming: nat, dropped: nat,
                         last: Option<int>, pending: Option<Id>, frame: Id, stamp: Stamp)
    requires CallbacksOk(frames, stamps, raw, incoming, dropped, last, pending) && !TooSoon(last, stamp)
    ensures Admitted(stamps + [stamp]) == Admitted(stamps) + [|stamps|]
    ensures CallbacksOk(frames + [frame], stamps + [stamp], raw + 1, incoming + 1, dropped,
                        if stamp.Some? then stamp else last, Some(frame))
  {
    hide Admitted, LastAdmitted, TooSoon;
    AdmittedNext(stamps, stamp);
    assert (frames + [frame])[|stamps|] == frame && (Admitted(stamps) + [|stamps|])[incoming] == |stamps|;
  }

  lemma NothingYet()
    ensures CallbacksOk([], [], 0, 0, 0, None, None) && Admitted([]) == []
    ensures LogOk([], 0, 0, 0, 0, None) && PacketsShow([], [], [])
  {
  }

  // ---- the backend --------------------------------------------------------------------------

  datatype Opening = Unavailable | OpenFailed | Opened(resolution: Option<(int, int)>)

  /** The counters metrics() reports, all since the last teardown. */
  datatype Counters = Counters(raw: nat, incoming: nat, dropped: nat, attempts: nat, successes: nat, failures: nat)

  /** Everything since the last teardown: the callbacks' frames and stamps, and the conversions. */
  datatype History = History(frames: seq<Id>, stamps: seq<Stamp>, conversions: seq<Conversion>)

  const NO_HISTORY := History([], [], [])

  /** What the fields must be, given what happened. */
  predicate Fits(h: History, c: Counters, sequence: nat, attempted: nat, last: Option<int>, pending: Option<Id>,
                 latest: Option<Packet>)
  {
    && CallbacksOk(h.frames, h.stamps, c.raw, c.incoming, c.dropped, last, pending)
    && c.incoming == sequence && c.attempts == |h.conversions|
    && LogOk(h.conversions, sequence, attempted, c.successes, c.failures, latest)
    && PacketsShow(h.conversions, h.frames, Admitted(h.stamps))
  }

  function Received(h: History, frame: Id, stamp: Stamp): History {
    h.(frames := h.frames + [frame], stamps := h.stamps + [stamp])
  }

  lemma FitsDropped(h: History, c: Counters, sequence: nat, attempted: nat, last: Option<int>, pending: Option<Id>,
                    latest: Option<Packet>, frame: Id, stamp: Stamp)
    requires Fits(h, c, sequence, attempted, last, pending, latest) && TooSoon(last, stamp)
    ensures Fits(Received(h, frame, stamp), c.(raw := c.raw + 1).(dropped := c.dropped + 1), sequence, attempted, last,
                 pending, latest)
  {
    hide Admitted, LogOk, PacketsShow, TooSoon, CallbacksOk;
    PacketsStillShow(h.conversions, h.frames, Admitted(h.stamps), frame, |h.stamps|);
    CallbackDropped(h.frames, h.stamps, c.raw, c.incoming, c.dropped, last, pending, frame, stamp);
  }

  lemma FitsAdmitted(h: History, c: Counters, sequence: nat, attempted: nat, last: Option<int>, pending: Option<Id>,
                     latest: Option<Packet>, frame: Id, stamp: Stamp)
    requires Fits(h, c, sequence, attempted, last, pending, latest) && !TooSoon(last, stamp)
    ensures Fits(Received(h, frame, stamp), c.(raw := c.raw + 1).(incoming := c.incoming + 1), sequence + 1, attempted,
                 if stamp.Some? then stamp else last, Some(frame), latest)
  {
    hide Admitted, LogOk, PacketsShow, TooSoon, CallbacksOk;
    PacketsStillShow(h.conversions, h.frames, Admitted(h.stamps), frame, |h.stamps|);
    CallbackAdmitted(h.frames, h.stamps, c.raw, c.incoming, c.dropped, last, pending, frame, stamp);
    LogBounds(h.conversions, sequence, attempted, c.successes, c.failures, latest);
  }

  /** The ghost history says what happened; Valid() ties every field to it. */
  class PreviewBackend {
    var running: bool
    var pendingFrame: Option<Id>
    var pendingSequence: nat
    var attemptedSequence: nat
    var lastAdmittedNs: Option<int>
    var counters: Counters
    var latestFrame: Option<Packet>
    var selectedResolution: Option<(int, int)>
    ghost var history: History

    ghost predicate Valid()
      reads this
    {
      && Fits(history, counters, pendingSequence, attemptedSequence, lastAdmittedNs, pendingFrame, latestFrame)
      && (!running ==> history == NO_HISTORY && selectedResolution == None)
    }

    constructor ()
      ensures Valid() && !running
    {
      hide Admitted, LogOk, PacketsShow, CallbacksOk;
      NothingYet();
      running, pendingFrame, pendingSequence, attemptedSequence, lastAdmittedNs := false, None, 0, 0, None;
      counters, latestFrame, selectedResolution := Counters(0, 0, 0, 0, 0, 0), None, None;
      history := NO_HISTORY;
    }

    /** _teardown */
    method Teardown()
      modifies this
      ensures Valid() && !running
    {
      hide Admitted, LogOk, PacketsShow, CallbacksOk;
      NothingYet();
      running, pendingFrame, pendingSequence, attemptedSequence, lastAdmittedNs := false, None, 0, 0, None;
      counters, latestFrame, selectedResolution := Counters(0, 0, 0, 0, 0, 0), None, None;
      history := NO_HISTORY;
    }

    /** start: a second start changes nothing; a first one begins with an empty history. */
    method Start(opening: Opening) returns (open: bool)
      requires Valid()
      modifies this
      ensures Valid() && running == open
      ensures open <==> old(running) || opening.Opened?
      ensures old(running) ==> unchanged(this)
      ensures !old(running) ==> history == NO_HISTORY
      ensures !old(running) && opening.Opened? ==> selectedResolution == opening.resolution
    {
      if running {
        return true;
      }
      match opening {
        case Unavailable =>
          return false;
        case OpenFailed =>
          Teardown();
          return false;
        case Opened(resolution) =>
          selectedResolution := resolution;
          running := true;
          return true;
      }
    }

    /** stop: whatever was counted, pending or cached is forgotten. */
    method Stop()
      modifies this
      ensures Valid() && !running
    {
      Teardown();
    }

    /** _admit_preview_frame */
    method AdmitPreviewFrame(stamp: Stamp) returns (admitted: bool)
      modifies this`lastAdmittedNs
      ensures admitted <==> !TooSoon(old(lastAdmittedNs), stamp)
      ensures !admitted <==>
                && old(lastAdmittedNs).Some? && stamp.Some?
                && 0 <= stamp.value - old(lastAdmittedNs).value < 32_333_333
      ensures lastAdmittedNs == if stamp.Some? && admitted then stamp else old(lastAdmittedNs)
    {
      if stamp.None? {
        return true;
      }
      if lastAdmittedNs.None? || stamp.value < lastAdmittedNs.value {
        lastAdmittedNs := stamp;
        return true;
      }
      var elapsed := stamp.value - lastAdmittedNs.value;
      if elapsed + TOLERANCE_NS < INTERVAL_NS {
        return false;
      }
      lastAdmittedNs := stamp;
      return true;
    }

    /** _on_qt_frame: a running backend notes the callback; a stopped one ignores it. Nothing is converted here. */
    method OnFrame(frame: Id, stamp: Stamp)
      requires Valid()
      modifies `pendingFrame, `pendingSequence, `lastAdmittedNs, `counters, `history
      ensures Valid()
      ensures if running then history == Received(old(history), frame, stamp) else unchanged(this)
      ensures running ==>
                if old(lastAdmittedNs).Some? && stamp.Some? && 0 <= stamp.value - old(lastAdmittedNs).value < 32_333_333
                then pendingFrame == old(pendingFrame) && pendingSequence == old(pendingSequence)
                else pendingFrame == Some(frame) && pendingSequence == old(pendingSequence) + 1
    {
      if !running {
        return;
      }
      hide Fits, TooSoon, Received;
      ghost var h, c, last, pending := history, counters, lastAdmittedNs, pendingFrame;
      history := Received(h, frame, stamp);
      counters := counters.(raw := counters.raw + 1);
      var admitted := AdmitPreviewFrame(stamp);
      if !admitted {
        FitsDropped(h, c, pendingSequence, attemptedSequence, last, pending, latestFrame, frame, stamp);
        counters := counters.(dropped := counters.dropped + 1);
        return;
      }
      FitsAdmitted(h, c, pendingSequence, attemptedSequence, last, pending, latestFrame, frame, stamp);
      counters := counters.(incoming := counters.incoming + 1);
      pendingSequence := pendingSequence + 1;
      pendingFrame := Some(frame);
    }

    /**
     get_latest_frame: converts the newest admitted frame unless that was attempted before, and returns the
     newest packet there is. `image` is what the driver would yield.
     */
    method GetLatestFrame(image: Image) returns (packet: Option<Packet>)
      requires Valid()
      modifies this
      ensures Valid() && running == old(running)
      ensures packet == latestFrame
      ensures history == old(history).(conversions :=
                old(history.conversions) +
                if old(pendingSequence) == old(attemptedSequence) then []
                else [Conversion(old(pendingSequence), Converted(old(pendingFrame).value, image))])
      ensures attemptedSequence == pendingSequence == old(pendingSequence) && pendingFrame == old(pendingFrame)
      ensures if old(pendingSequence) != old(attemptedSequence) && image.Sized? && image.width > 0 && image.height > 0
              then packet == Some(Packet(old(pendingFrame).value, image.width, image.height))
                   && selectedResolution == if old(selectedResolution).Some? then old(selectedResolution)
                                            else Some((image.width, image.height))
              else packet == old(latestFrame) && selectedResolution == old(selectedResolution)
    {
      hide Admitted, LogOk;
      LogBounds(history.conversions, pendingSequence, attemptedSequence, counters.successes, counters.failures,
                latestFrame);
      if pendingFrame.None? || pendingSequence == 0 {
        return None;
      }
      if pendingSequence == attemptedSequence {
        return latestFrame;
      }
      ghost var conversion := Conversion(pendingSequence, Converted(pendingFrame.value, image));
      LogNext(history.conversions, pendingSequence, attemptedSequence, counters.successes, counters.failures,
              latestFrame, conversion.packet);
      history := history.(conversions := history.conversions + [conversion]);
      attemptedSequence := pendingSequence;
      counters := counters.(attempts := counters.attempts + 1);
      if !image.Sized? || image.width <= 0 || image.height <= 0 {
        counters := counters.(failures := counters.failures + 1);
        return latestFrame;
      }
      packet := Some(Packet(pendingFrame.value, image.width, image.height));
      latestFrame := packet;
      counters := counters.(successes := counters.successes + 1);
      if selectedResolution.None? {
        selectedResolution := Some((image.width, image.height));
      }
    }

    /** metrics: the counters' laws, after any interleaving of callbacks, polls, starts and stops. */
    method ReadMetrics() returns (m: Counters)
      requires Valid()
      ensures m.raw == |history.stamps| && m.incoming == |Admitted(history.stamps)| && m.raw == m.incoming + m.dropped
      ensures m.attempts == |history.conversions| && m.attempts == m.successes + m.failures && m.attempts <= m.incoming
      ensures Timed(history.stamps) && Ordered(history.stamps) ==>
                forall from, span: nat :: InWindow(history.stamps, from, span) <= 1 + span / 32_333_333
      ensures Timed(history.stamps) ==> (m.dropped == 0 <==> Spaced(history.stamps))
    {
      ConversionsAreFew(history.conversions, pendingSequence);
      if Timed(history.stamps) {
        NoneLostIff(history.stamps);
        if Ordered(history.stamps) {
          forall from, span: nat ensures InWindow(history.stamps, from, span) <= 1 + span / 32_333_333 {
            WindowIsBounded(history.stamps, from, span);
          }
        }
      }
      m := counters;
    }
  }
}
