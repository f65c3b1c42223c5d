/** The records that tasks publish to the status channel (lib/SystemStatus/StatusTypes.h):
    notifications with a bounded text, and typed status updates. */
module StatusTypes {
  import opened Wrappers
  import opened FixedWidth

  /** `sizeof(NotificationData::message)`: the text buffer, terminator included. */
  const MESSAGE_BUFFER_SIZE: nat := 128
  /** The longest text the buffer holds. */
  const MAX_MESSAGE_LENGTH: nat := MESSAGE_BUFFER_SIZE - 1

  datatype NotificationType = Warning | Error

  /** The nineteen status update kinds, in the order of the C enum. */
  datatype StatusUpdateType =
    | SpeedSetpointChanged
    | DirectionChanged
    | EnabledChanged
    | CurrentChanged
    | AccelerationChanged
    | SpeedVariationEnabledChanged
    | SpeedVariationStrengthChanged
    | SpeedVariationPhaseChanged
    | SpeedUpdate
    | TotalRevolutionsUpdate
    | RuntimeUpdate
    | StallDetectedUpdate
    | StallCountUpdate
    | Tmc2209StatusUpdate
    | Tmc2209TemperatureUpdate
    | PdNegotiationStatus
    | PdNegotiatedVoltage
    | PdCurrentVoltage
    | PdPowerGoodStatus

  /** The text a NUL-terminated character buffer holds: everything before the first NUL, or the
      whole buffer when it holds none. */
  function CString(s: seq<char>): (r: seq<char>)
    ensures r <= s
    ensures '\0' !in r
    ensures |r| < |s| ==> s[|r|] == '\0'
  {
    if s == [] || s[0] == '\0' then [] else [s[0]] + CString(s[1..])
  }

  /** A text with no NUL before position `n`, and a NUL (or the end) at `n`, holds exactly its
      first `n` characters. */
  lemma CStringAt(s: seq<char>, n: nat)
    requires n <= |s|
    requires forall k :: 0 <= k < n ==> s[k] != '\0'
    requires n < |s| ==> s[n] == '\0'
    ensures CString(s) == s[..n]
  {
    CStringPrefix(s, n);
  }

  /** A text with no NUL before position `n` holds at least its first `n` characters. */
  lemma CStringPrefix(s: seq<char>, n: nat)
    requires n <= |s|
    requires forall k :: 0 <= k < n ==> s[k] != '\0'
    ensures n <= |CString(s)| && CString(s)[..n] == s[..n]
  {
    var r := CString(s);
    assert r == s[..|r|];
  }

  /** The first `n` characters of `s` (all of them when `s` is shorter). */
  function Take(s: seq<char>, n: nat): (r: seq<char>)
    ensures r <= s && |r| == if |s| <= n then |s| else n
  {
    if |s| <= n then s else s[..n]
  }

  /** Cutting a buffer and then reading its text is reading its text and then cutting it. */
  lemma CStringTake(s: seq<char>, n: nat)
    ensures CString(Take(s, n)) == Take(CString(s), n)
  {
    var t := Take(s, n);
    var m := |Take(CString(s), n)|;
    assert forall k :: 0 <= k < m ==> t[k] == CString(s)[k];
    if m < |t| {
      assert m == |CString(s)|;
    }
    CStringAt(t, m);
  }

  /** The text a `NotificationData` holds after `setMessage(msg)`: nothing for a null pointer,
      else the first 127 characters of the C string `msg`. */
  function StoredText(msg: Option<seq<char>>): (r: seq<char>)
    ensures |r| <= MAX_MESSAGE_LENGTH && '\0' !in r
    ensures msg.None? ==> r == []
    ensures msg.Some? ==> r <= msg.value && r <= CString(msg.value)
    ensures msg.Some? && |CString(msg.value)| <= MAX_MESSAGE_LENGTH ==> r == CString(msg.value)
    ensures msg.Some? ==> |r| == if |CString(msg.value)| <= MAX_MESSAGE_LENGTH then |CString(msg.value)| else MAX_MESSAGE_LENGTH
  {
    match msg
    case None => []
    case Some(m) => Take(CString(m), MAX_MESSAGE_LENGTH)
  }

  /** A notification: its severity and the text its 128-byte buffer holds. */
  datatype NotificationData = NotificationData(kind: NotificationType, message: seq<char>)

  /** `NotificationData()`: a WARNING with an empty text. */
  function DefaultNotification(): NotificationData {
    NotificationData(Warning, [])
  }

  /** `setMessage(msg)` on a notification record: the severity stays, the text is replaced. */
  function SetMessage(n: NotificationData, msg: Option<seq<char>>): (r: NotificationData)
    ensures r.kind == n.kind
    ensures |r.message| <= MAX_MESSAGE_LENGTH
    ensures msg.None? ==> r.message == []
    ensures msg.Some? && |CString(msg.value)| <= MAX_MESSAGE_LENGTH ==> r.message == CString(msg.value)
    ensures msg.Some? ==> r.message <= CString(msg.value)
    ensures msg.Some? ==> |r.message| == if |CString(msg.value)| <= MAX_MESSAGE_LENGTH then |CString(msg.value)| else MAX_MESSAGE_LENGTH
  {
    n.(message := StoredText(msg))
  }

  /** `setMessage(msg)` on the buffer itself: `strncpy(message, msg, 127)` copies the C string
      `msg` up to its terminator or 127 characters and pads the rest with NULs, then the last byte
      is set to NUL; a null `msg` only puts a NUL in front. */
  method WriteMessage(buf: array<char>, msg: Option<seq<char>>)
    requires buf.Length == MESSAGE_BUFFER_SIZE
    modifies buf
    ensures CString(buf[..]) == StoredText(msg)
    ensures msg.Some? ==> forall k :: |StoredText(msg)| <= k < buf.Length ==> buf[k] == '\0'
    ensures msg.None? ==> forall k :: 0 < k < buf.Length ==> buf[k] == old(buf[k])
  {
    match msg
    case None =>
      buf[0] := '\0';
      CStringAt(buf[..], 0);
    case Some(m) =>
      var i := 0;
      while i < MAX_MESSAGE_LENGTH && i < |m| && m[i] != '\0'
        invariant 0 <= i <= MAX_MESSAGE_LENGTH && i <= |m|
        invariant forall k :: 0 <= k < i ==> buf[k] == m[k] && m[k] != '\0'
      {
        buf[i] := m[i];
        i := i + 1;
      }
      var j := i;
      while j < MAX_MESSAGE_LENGTH
        invariant i <= j <= MAX_MESSAGE_LENGTH
        invariant forall k :: 0 <= k < i ==> buf[k] == m[k] && m[k] != '\0'
        invariant forall k :: i <= k < j ==> buf[k] == '\0'
      {
        buf[j] := '\0';
        j := j + 1;
      }
      buf[MAX_MESSAGE_LENGTH] := '\0';
      if i < MAX_MESSAGE_LENGTH {
        CStringAt(m, i);
      } else {
        CStringPrefix(m, i);
      }
      CStringAt(buf[..], i);
  }

  /** The union of a status update: the member written and its value (`unsigned long` is 32 bits
      wide on this target). */
  datatype StatusValue =
    | StatusFloat(f: real)
    | StatusBool(b: bool)
    | StatusInt(i: int32)
    | StatusUint32(u: uint32)
    | StatusUlong(ul: uint32)

  /** A status update; its five value constructors are `StatusUpdateData(t, StatusFloat(v))`
      and so on. */
  datatype StatusUpdateData = StatusUpdateData(kind: StatusUpdateType, value: StatusValue)

  /** `StatusUpdateData()`: a SPEED_UPDATE carrying 0.0. */
  function DefaultStatusUpdate(): StatusUpdateData {
    StatusUpdateData(SpeedUpdate, StatusFloat(0.0))
  }

  /** The default records: a WARNING with no text, and a SPEED_UPDATE of 0.0; setting a null
      message on any record empties its text. */
  lemma DefaultRecords(n: NotificationData)
    ensures DefaultNotification().kind == Warning && DefaultNotification().message == []
    ensures DefaultStatusUpdate().kind == SpeedUpdate && DefaultStatusUpdate().value == StatusFloat(0.0)
    ensures SetMessage(n, None) == n.(message := [])
  {
  }
}
