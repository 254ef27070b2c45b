/**
 * The gate kiosk: keystrokes from a keyboard-emulating RFID reader are
 * collected into a buffer, flushed as one scan on Enter, posted one at a
 * time, and the outcome is shown and kept in a short most-recent-first history.
 * Timers and the HTTP round trip are explicit events.
 */
module Kiosk {
  import opened Util
  import opened Text

  datatype Student = Student(
    id: nat, name: string, grade: string, section: string,
    profileImageUrl: Option<string>, adviserName: Option<string>)

  datatype Direction = In | Out

  datatype ScanStamp = ScanStamp(direction: Direction, scannedAt: string)

  /** What the screen shows for one submitted code. */
  datatype ScanResult = ScanResult(success: bool, message: string, student: Option<Student>, scan: Option<ScanStamp>)

  /** How the POST to `/kiosk/scan` ended. */
  datatype ScanOutcome =
    | Answered(data: ScanResult)                                  // a 2xx response; its body is shown as it is
    | Refused(serverMessage: Option<string>, student: Option<Student>)  // an error status with a body
    | NoResponse                                                  // the request never got an answer

  /** The body of the scan request: the trimmed code and the kiosk's school. */
  datatype ScanRequest = ScanRequest(rfidCode: string, schoolId: int)

  datatype Modifiers = Modifiers(ctrl: bool, alt: bool, meta: bool) {
    predicate Any() { ctrl || alt || meta }
  }

  const HistoryLimit := 50
  const ScanFailed := "Scan failed. Please try again."
  const ConnectionError := "Connection error. Please check backend."
  const EnterKey := "Enter"

  /** `[entry, ...history].slice(0, 50)`. */
  function RecordScan(history: seq<ScanResult>, entry: ScanResult): (r: seq<ScanResult>)
    ensures |r| == if |history| < HistoryLimit then |history| + 1 else HistoryLimit
    ensures 1 <= |r| <= HistoryLimit
    ensures r[0] == entry
    ensures r[1..] == history[..|r| - 1]
  {
    var all := [entry] + history;
    if |all| <= HistoryLimit then all else all[..HistoryLimit]
  }

  /**
   * The result displayed for an outcome: a 2xx body as it is; an error
   * status as a failure with the server's message (or a generic one) and
   * the server's student; no response as a connection failure with no
   * student. Failures carry a local stamp `now` in direction "in".
   */
  function Displayed(outcome: ScanOutcome, now: string): (r: ScanResult)
    ensures outcome.Answered? ==> r == outcome.data
    ensures !outcome.Answered? ==> !r.success && r.scan == Some(ScanStamp(In, now)) && r.message != ""
    ensures outcome.Refused? ==> r.student == outcome.student
    ensures outcome.Refused? ==> r.message == ScanFailed || (outcome.serverMessage == Some(r.message) && r.message != "")
    ensures outcome.Refused? && outcome.serverMessage.Some? && outcome.serverMessage.value != "" ==>
      r.message == outcome.serverMessage.value
    ensures outcome.Refused? && (outcome.serverMessage.None? || outcome.serverMessage.value == "") ==>
      r.message == ScanFailed
    ensures outcome.NoResponse? ==> r.message == ConnectionError && r.student == None
  {
    match outcome
    case Answered(data) => data
    case Refused(serverMessage, student) =>
      ScanResult(false, OrElse(serverMessage, ScanFailed), student, Some(ScanStamp(In, now)))
    case NoResponse =>
      ScanResult(false, ConnectionError, None, Some(ScanStamp(In, now)))
  }

  class Kiosk {
    const schoolId: int
    var buffer: string
    var scanning: bool
    var result: Option<ScanResult>
    var history: seq<ScanResult>
    var scanCount: nat
    var bufferTimerArmed: bool    // the 500 ms idle timer that clears the buffer
    var resultTimerArmed: bool    // the 5 s timer that clears the displayed result

    /** The history is bounded, and nothing is displayed while a scan is in flight. */
    ghost predicate Valid()
      reads this
    {
      |history| <= HistoryLimit && (scanning ==> result == None)
    }

    constructor (schoolId: int)
      ensures Valid() && this.schoolId == schoolId
      ensures buffer == "" && !scanning && result == None && history == [] && scanCount == 0
      ensures !bufferTimerArmed && !resultTimerArmed
    {
      this.schoolId := schoolId;
      buffer := "";
      scanning := false;
      result := None;
      history := [];
      scanCount := 0;
      bufferTimerArmed := false;
      resultTimerArmed := false;
    }

    /**
     * `processScan`: a blank code, or a code arriving while another is in
     * flight, is dropped with no change; otherwise the trimmed code is sent,
     * `scanning` is set and the displayed result is cleared.
     */
    method BeginScan(code: string) returns (sent: Option<ScanRequest>)
      requires Valid()
      modifies this
      ensures Valid()
      ensures IsBlank(code) || old(scanning) ==> sent == None && unchanged(this)
      ensures !IsBlank(code) && !old(scanning) ==>
        && sent == Some(ScanRequest(Trim(code), schoolId))
        && scanning && result == None
        && buffer == old(buffer) && history == old(history) && scanCount == old(scanCount)
        && bufferTimerArmed == old(bufferTimerArmed) && resultTimerArmed == old(resultTimerArmed)
    {
      TrimEmptyIffBlank(code);
      if Trim(code) == [] || scanning {
        sent := None;
        return;
      }
      scanning := true;
      result := None;
      sent := Some(ScanRequest(Trim(code), schoolId));
    }

    /**
     * `handleKeyDown`: keys with Ctrl, Alt or Meta are ignored; Enter flushes
     * a non-blank buffer to `BeginScan` and empties it (even when the scan is
     * then dropped); a one-character key is appended and re-arms the idle
     * timer; any other key changes nothing.
     */
    method KeyDown(key: string, mods: Modifiers) returns (sent: Option<ScanRequest>)
      requires Valid()
      modifies this
      ensures Valid()
      ensures mods.Any() ==> sent == None && unchanged(this)
      ensures !mods.Any() && key == EnterKey && IsBlank(old(buffer)) ==> sent == None && unchanged(this)
      ensures !mods.Any() && key == EnterKey && !IsBlank(old(buffer)) ==>
        && buffer == ""
        && sent == (if old(scanning) then None else Some(ScanRequest(Trim(old(buffer)), schoolId)))
        && scanning && result == (if old(scanning) then old(result) else None)
        && history == old(history) && scanCount == old(scanCount)
        && bufferTimerArmed == old(bufferTimerArmed) && resultTimerArmed == old(resultTimerArmed)
      ensures !mods.Any() && key != EnterKey && |key| == 1 ==>
        && sent == None && buffer == old(buffer) + key && bufferTimerArmed
        && scanning == old(scanning) && result == old(result) && history == old(history)
        && scanCount == old(scanCount) && resultTimerArmed == old(resultTimerArmed)
      ensures !mods.Any() && key != EnterKey && |key| != 1 ==> sent == None && unchanged(this)
    {
      sent := None;
      if mods.Any() {
        return;
      }
      if key == EnterKey {
        TrimEmptyIffBlank(buffer);
        if Trim(buffer) != [] {
          sent := BeginScan(buffer);
          buffer := "";
        }
        return;
      }
      if |key| == 1 {
        buffer := buffer + key;
        bufferTimerArmed := true;
      }
    }

    /** The idle timer fires: the buffer is emptied and nothing is submitted. */
    method BufferTimeout()
      requires Valid()
      modifies this
      ensures Valid()
      ensures old(bufferTimerArmed) ==> buffer == "" && !bufferTimerArmed
      ensures !old(bufferTimerArmed) ==> buffer == old(buffer) && !bufferTimerArmed
      ensures scanning == old(scanning) && result == old(result) && history == old(history)
      ensures scanCount == old(scanCount) && resultTimerArmed == old(resultTimerArmed)
    {
      if bufferTimerArmed {
        buffer := "";
        bufferTimerArmed := false;
      }
    }

    /**
     * The scan request settles. The displayed result becomes the outcome's
     * result and is put at the head of the history; only an answered scan
     * counts; `scanning` is released and the clear timer is (re)armed.
     */
    method CompleteScan(outcome: ScanOutcome, now: string)
      requires Valid() && scanning
      modifies this
      ensures Valid()
      ensures !scanning && resultTimerArmed
      ensures result == Some(Displayed(outcome, now))
      ensures history == RecordScan(old(history), Displayed(outcome, now))
      ensures scanCount == old(scanCount) + (if outcome.Answered? then 1 else 0)
      ensures buffer == old(buffer) && bufferTimerArmed == old(bufferTimerArmed)
    {
      var shown := Displayed(outcome, now);
      result := Some(shown);
      if outcome.Answered? {
        scanCount := scanCount + 1;
      }
      history := RecordScan(history, shown);
      scanning := false;
      resultTimerArmed := true;
    }

    /** The 5 s timer fires: the displayed result is cleared. */
    method ResultTimeout()
      requires Valid()
      modifies this
      ensures Valid()
      ensures old(resultTimerArmed) ==> result == None
      ensures !old(resultTimerArmed) ==> result == old(result)
      ensures !resultTimerArmed
      ensures buffer == old(buffer) && scanning == old(scanning) && history == old(history)
      ensures scanCount == old(scanCount) && bufferTimerArmed == old(bufferTimerArmed)
    {
      if resultTimerArmed {
        result := None;
        resultTimerArmed := false;
      }
    }
  }

  /**
   * A card tap: the reader types `code` one character at a time, with no
   * idle timeout in between, and then presses Enter. Starting from an empty
   * buffer and no scan in flight, exactly the trimmed concatenation of the
   * keystrokes is submitted.
   */
  method TapCard(k: Kiosk, code: string) returns (sent: Option<ScanRequest>)
    requires k.Valid() && k.buffer == "" && !k.scanning
    requires !IsBlank(code)
    modifies k
    ensures k.Valid()
    ensures sent == Some(ScanRequest(Trim(code), k.schoolId))
    ensures k.buffer == "" && k.scanning && k.result == None
    ensures k.history == old(k.history) && k.scanCount == old(k.scanCount)
  {
    var i := 0;
    while i < |code|
      invariant 0 <= i <= |code|
      invariant k.Valid() && !k.scanning
      invariant k.buffer == code[..i]
      invariant k.history == old(k.history) && k.scanCount == old(k.scanCount)
    {
      var ignored := k.KeyDown([code[i]], Modifiers(false, false, false));
      assert code[..i + 1] == code[..i] + [code[i]];
      i := i + 1;
    }
    assert k.buffer == code;
    sent := k.KeyDown(EnterKey, Modifiers(false, false, false));
  }

  /** A card tap: A, 1, 2, 3, Enter submits "A123". */
  method TapExample(k: Kiosk) returns (sent: Option<ScanRequest>)
    requires k.Valid() && k.buffer == "" && !k.scanning
    modifies k
    ensures sent == Some(ScanRequest("A123", k.schoolId))
  {
    assert !IsWhitespace("A123"[0]);
    sent := TapCard(k, "A123");
    TrimNoPadding("A123");
  }
}
