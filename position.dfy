/** The position side of the component: the fix globals, the notification
    handler `PositionHandlerFunction`, which drops samples without a position,
    and `getPositionInfo`, which copies location and time into the globals and
    rewrites `time_string` when the time read is usable. The GNSS service is
    not modelled: a sample is given by what its reads return. */
module Position {
  import opened CTypes
  import opened TimeFormat

  /** Size of the `time_string` array. */
  const TIME_STRING_SIZE: nat := 30

  /** `le_gnss_FixState_t`. */
  datatype FixState = NoPos | Fix2D | Fix3D | Estimated

  /** `le_result_t`: the two codes the handlers test for, and any other code
      (the handlers treat all others alike). */
  datatype LeResult = Ok | OutOfRange | OtherResult

  /** One position notification as the GNSS service answers for it:
      `le_gnss_GetPositionState`, `le_gnss_GetLocation` and `le_gnss_GetTime`
      each give a result code and the values they leave in their
      out-parameters, which are the globals themselves. */
  datatype Sample = Sample(
    ref: nat,
    stateResult: LeResult,
    state: FixState,
    locationResult: LeResult,
    latitude: int32,
    longitude: int32,
    hAccuracy: int32,
    timeResult: LeResult,
    time: TimeOfDay)

  /** The values of the fix globals, `time_string` as its 30 characters. */
  datatype Fix = Fix(
    latitude: int32,
    longitude: int32,
    altitude: int32,
    hAccuracy: int32,
    magneticDeviation: int32,
    time: TimeOfDay,
    timeString: seq<char>)

  /** The globals before any sample: all zero. */
  function InitialFix(): (f: Fix)
    ensures |f.timeString| == TIME_STRING_SIZE && CString(f.timeString, '\0') == []
  {
    Fix(0, 0, 0, 0, 0, TimeOfDay(0, 0, 0, 0), seq(TIME_STRING_SIZE, _ => '\0'))
  }

  /** The filter of `PositionHandlerFunction`: the state read succeeded and
      reported a position. */
  predicate Accepted(s: Sample)
  {
    s.stateResult == Ok && s.state != NoPos
  }

  /** The time read codes after which `time_string` is rewritten. */
  predicate TimeUsable(r: LeResult)
  {
    r == Ok || r == OutOfRange
  }

  /** `getPositionInfo` on the values of the globals: location and time fields
      take the values the reads left; `time_string` then holds the formatted
      time if the time read was usable, and is untouched otherwise. */
  function PositionInfo(f: Fix, s: Sample): (r: Fix)
    requires |f.timeString| == TIME_STRING_SIZE
    ensures |r.timeString| == TIME_STRING_SIZE
    ensures TimeUsable(s.timeResult) ==> CString(r.timeString, '\0') == FormatTime(s.time)
    ensures !TimeUsable(s.timeResult) ==> r.timeString == f.timeString
  {
    var located := f.(latitude := s.latitude, longitude := s.longitude, hAccuracy := s.hAccuracy, time := s.time);
    if TimeUsable(s.timeResult) then
      CStringOfStored(f.timeString, FormatTime(s.time), '\0');
      located.(timeString := StoreCString(f.timeString, FormatTime(s.time), '\0'))
    else
      located
  }

  /** `PositionHandlerFunction` on the values of the globals. */
  function HandleSample(f: Fix, s: Sample): (r: Fix)
    requires |f.timeString| == TIME_STRING_SIZE
    ensures |r.timeString| == TIME_STRING_SIZE
  {
    if Accepted(s) then PositionInfo(f, s) else f
  }

  /** The globals after the handler has run on each sample in turn. */
  function HandleAll(f: Fix, samples: seq<Sample>): (r: Fix)
    requires |f.timeString| == TIME_STRING_SIZE
    ensures |r.timeString| == TIME_STRING_SIZE
  {
    if samples == [] then f else HandleSample(HandleAll(f, samples[..|samples| - 1]), samples[|samples| - 1])
  }

  /** The most recent sample that passes the filter. */
  function LastAccepted(samples: seq<Sample>): (r: Option<Sample>)
    ensures r.Some? ==> r.value in samples && Accepted(r.value)
  {
    if samples == [] then None
    else if Accepted(samples[|samples| - 1]) then Some(samples[|samples| - 1])
    else LastAccepted(samples[..|samples| - 1])
  }

  /** The most recent sample that passes the filter and whose time read is
      usable. */
  function LastTimed(samples: seq<Sample>): (r: Option<Sample>)
    ensures r.Some? ==> r.value in samples && Accepted(r.value) && TimeUsable(r.value.timeResult)
  {
    if samples == [] then None
    else
      var s := samples[|samples| - 1];
      if Accepted(s) && TimeUsable(s.timeResult) then Some(s) else LastTimed(samples[..|samples| - 1])
  }

  /** After any run of notifications, the location and time globals hold the
      values of the last accepted sample, or their old values if no sample was
      accepted; altitude and magnetic deviation are never written. */
  lemma {:induction false} LocationIsLastAccepted(f: Fix, samples: seq<Sample>)
    requires |f.timeString| == TIME_STRING_SIZE
    ensures var r := HandleAll(f, samples);
      && r.altitude == f.altitude && r.magneticDeviation == f.magneticDeviation
      && match LastAccepted(samples)
         case None =>
           r.latitude == f.latitude && r.longitude == f.longitude
           && r.hAccuracy == f.hAccuracy && r.time == f.time
         case Some(s) =>
           r.latitude == s.latitude && r.longitude == s.longitude
           && r.hAccuracy == s.hAccuracy && r.time == s.time
  {
    if samples != [] {
      LocationIsLastAccepted(f, samples[..|samples| - 1]);
    }
  }

  /** After any run of notifications, `time_string` reads as the formatted
      time of the last accepted sample with a usable time read, and is
      unchanged if there was none. */
  lemma {:induction false} TimeStringIsLastTimed(f: Fix, samples: seq<Sample>)
    requires |f.timeString| == TIME_STRING_SIZE
    ensures var r := HandleAll(f, samples);
      match LastTimed(samples)
      case None => r.timeString == f.timeString
      case Some(s) => CString(r.timeString, '\0') == FormatTime(s.time)
  {
    if samples != [] {
      TimeStringIsLastTimed(f, samples[..|samples| - 1]);
    }
  }

  /** A sample that fails the filter changes nothing, whatever its later
      reads would have returned. */
  lemma RejectedChangesNothing(f: Fix, s: Sample)
    requires |f.timeString| == TIME_STRING_SIZE
    requires !Accepted(s)
    ensures HandleSample(f, s) == f
  {
  }

  /** The fix globals of the component, written by the position thread. */
  class PositionGlobals {
    var latitude: int32
    var longitude: int32
    var altitude: int32
    var hAccuracy: int32
    var magneticDeviation: int32
    var hours: uint16
    var minutes: uint16
    var seconds: uint16
    var milliseconds: uint16
    const timeString: array<char>
    /** Sample references handed back with `le_gnss_ReleaseSampleRef`. */
    ghost var released: seq<nat>

    /** `time_string` is the 30-character array and always holds a
        terminator. */
    ghost predicate Valid()
      reads this, timeString
    {
      timeString.Length == TIME_STRING_SIZE && '\0' in timeString[..]
    }

    function Snapshot(): Fix
      reads this, timeString
    {
      Fix(latitude, longitude, altitude, hAccuracy, magneticDeviation,
          TimeOfDay(hours, minutes, seconds, milliseconds), timeString[..])
    }

    /** The static initialisers: every global zero. */
    constructor ()
      ensures Valid() && fresh(timeString)
      ensures Snapshot() == InitialFix() && released == []
    {
      latitude, longitude, altitude, hAccuracy, magneticDeviation := 0, 0, 0, 0, 0;
      hours, minutes, seconds, milliseconds := 0, 0, 0, 0;
      timeString := new char[TIME_STRING_SIZE](_ => '\0');
      released := [];
      new;
      assert timeString[..][0] == '\0';
    }

    /** `getPositionInfo`. */
    method GetPositionInfo(s: Sample)
      requires Valid()
      modifies this, timeString
      ensures Valid() && released == old(released)
      ensures Snapshot() == PositionInfo(old(Snapshot()), s)
    {
      // le_gnss_GetLocation writes straight into the globals
      latitude, longitude, hAccuracy := s.latitude, s.longitude, s.hAccuracy;
      // le_gnss_GetTime likewise
      hours, minutes, seconds, milliseconds := s.time.hours, s.time.minutes, s.time.seconds, s.time.milliseconds;
      if s.timeResult == Ok || s.timeResult == OutOfRange {
        var text := FormatTime(TimeOfDay(hours, minutes, seconds, milliseconds));
        CopyCString(timeString, text, '\0');
        assert timeString[..][|text|] == '\0';
      }
    }

    /** `PositionHandlerFunction`: drops the sample unless its state read
        succeeded with a position, and hands the sample back exactly once on
        either path. */
    method PositionHandlerFunction(s: Sample)
      requires Valid()
      modifies this, timeString
      ensures Valid()
      ensures Snapshot() == HandleSample(old(Snapshot()), s)
      ensures released == old(released) + [s.ref]
    {
      if s.stateResult != Ok || s.state == NoPos {
        released := released + [s.ref];
        return;
      }
      GetPositionInfo(s);
      released := released + [s.ref];
    }
  }
}
