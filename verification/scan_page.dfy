/**
 * The Scan page: turning scanned or typed text into a ledger lookup, recording each
 * attempt in a ten-entry history, and stopping the camera after an accepted scan.
 */
module ScanPage {
  import opened Wrappers
  import opened Seqs
  import opened TicketContext

  /**
   * What JSON.parse makes of a text: malformed, `null`, or any other value with its `id`
   * and `number` properties (None when absent, and for values that are not objects).
   */
  datatype Payload = Malformed | Null | Value(id: Option<string>, number: Option<string>)

  /** A property is truthy: present and not the empty string. */
  predicate Truthy(field: Option<string>) {
    field.Some? && field.value != ""
  }

  /**
   * The guard of handleScanResult: text that does not parse, `null` (whose property access
   * throws) and values lacking a truthy id or number are ignored; the rest is looked up by both.
   */
  function Gate(p: Payload): (r: Option<Lookup>)
    ensures r.Some? <==> p.Value? && Truthy(p.id) && Truthy(p.number)
    ensures r.Some? ==> r.value.id == p.id && r.value.number == p.number
  {
    match p
    case Value(id, number) =>
      if Truthy(id) && Truthy(number) then Some(Lookup(id, number)) else None
    case _ => None
  }

  /** What a ticket's QR code reads back as: `JSON.stringify({id, number})` parsed again. */
  function QrPayload(t: Ticket): Payload {
    Value(Some(t.id), Some(t.number))
  }

  /**
   * Scanning a ticket's own QR code in a ledger with unique ids and numbers finds that
   * ticket: it is accepted exactly when it was not yet scanned, and then it is the one stamped.
   */
  lemma QrCodeFindsItsTicket(tickets: seq<Ticket>, i: nat, now: Time)
    requires i < |tickets|
    requires UniqueIds(tickets) && UniqueNumbers(tickets)
    requires tickets[i].id != "" && tickets[i].number != ""
    ensures Gate(QrPayload(tickets[i])).Some?
    ensures var o := Scan(tickets, Gate(QrPayload(tickets[i])).value, now);
      && (o.result.success <==> IsUnscanned(tickets[i]))
      && (o.result.duplicate <==> IsScanned(tickets[i]))
      && (o.result.success ==> o.tickets == tickets[i := tickets[i].(scannedAt := Some(now))])
  {
    var lookup := Gate(QrPayload(tickets[i])).value;
    var k := FirstMatch(tickets, lookup);
    assert Matches(tickets[i], lookup);
    assert Ids(tickets)[k] == tickets[k].id && Numbers(tickets)[k] == tickets[k].number;
    assert Ids(tickets)[i] == tickets[i].id && Numbers(tickets)[i] == tickets[i].number;
    assert k == i;
  }

  /** Whitespace as String.prototype.trim removes it. */
  predicate IsWhitespace(c: char) {
    || c in {' ', '\t', '\n', '\U{B}', '\U{C}', '\r', '\U{A0}', '\U{1680}', '\U{2028}', '\U{2029}'}
    || c in {'\U{202F}', '\U{205F}', '\U{3000}', '\U{FEFF}'}
    || '\U{2000}' <= c <= '\U{200A}'
  }

  /** `!text.trim()`: the text is empty once trimmed. */
  predicate Blank(s: string) {
    forall i :: 0 <= i < |s| ==> IsWhitespace(s[i])
  }

  /** `trimStart()`: drop the leading whitespace. */
  function TrimStart(s: string): (r: string)
    ensures |r| <= |s| && r == s[|s| - |r|..]
    ensures forall i :: 0 <= i < |s| - |r| ==> IsWhitespace(s[i])
    ensures r == [] || !IsWhitespace(r[0])
  {
    if s != [] && IsWhitespace(s[0]) then TrimStart(s[1..]) else s
  }

  /** `trimEnd()`: drop the trailing whitespace. */
  function TrimEnd(s: string): (r: string)
    ensures |r| <= |s| && r == s[..|r|]
    ensures forall i :: |r| <= i < |s| ==> IsWhitespace(s[i])
    ensures r == [] || !IsWhitespace(r[|r| - 1])
  {
    if s != [] && IsWhitespace(s[|s| - 1]) then TrimEnd(s[..|s| - 1]) else s
  }

  /**
   * `trim()`: the text without its leading and trailing whitespace. It is empty exactly when
   * the text is blank; otherwise it starts and ends with a non-whitespace character.
   */
  function Trim(s: string): (r: string)
    ensures r == [] <==> Blank(s)
    ensures r != [] ==> !IsWhitespace(r[0]) && !IsWhitespace(r[|r| - 1])
    ensures exists a :: 0 <= a <= |s| && r <= s[a..]
  {
    var t := TrimStart(s);
    var r := TrimEnd(t);
    assert t != [] ==> !IsWhitespace(t[0]) && t[0] == s[|s| - |t|];
    assert r == [] ==> t == [];
    assert r != [] ==> r[0] == t[0];
    assert r <= s[|s| - |t|..];
    r
  }

  /** One entry of the scan history; `ticket` is what was looked up. */
  datatype ScanRecord = ScanRecord(timestamp: Time, ticket: Lookup, success: bool, duplicate: bool, message: string)

  function RecordOf(now: Time, lookup: Lookup, result: ScanResult): ScanRecord {
    ScanRecord(now, lookup, result.success, result.duplicate, result.message)
  }

  /** How many scans the history keeps. */
  const HistoryLength: nat := 10

  function Min(a: nat, b: nat): nat {
    if a < b then a else b
  }

  /** `[record, ...prev.slice(0, 9)]`: the newest record first, then the nine newest before it. */
  function Remember(history: seq<ScanRecord>, rec: ScanRecord): (r: seq<ScanRecord>)
    ensures |r| == Min(|history| + 1, HistoryLength)
    ensures r[0] == rec && r[1..] == history[..|r| - 1]
  {
    [rec] + history[..Min(|history|, HistoryLength - 1)]
  }

  /** The history after recording `recs` in order, oldest first. */
  function RememberAll(history: seq<ScanRecord>, recs: seq<ScanRecord>): seq<ScanRecord>
    decreases |recs|
  {
    if recs == [] then history else RememberAll(Remember(history, recs[0]), recs[1..])
  }

  /**
   * Whatever was recorded, the history holds the latest records, newest first, followed by
   * the older history, cut at ten entries.
   */
  lemma {:induction false} HistoryKeepsLatest(history: seq<ScanRecord>, recs: seq<ScanRecord>)
    requires |history| <= HistoryLength
    ensures RememberAll(history, recs) == (Reverse(recs) + history)[..Min(|recs| + |history|, HistoryLength)]
    decreases |recs|
  {
    if recs == [] {
      assert Reverse(recs) + history == history;
    } else {
      var h1 := Remember(history, recs[0]);
      HistoryKeepsLatest(h1, recs[1..]);
      var m := Min(|recs| + |history|, HistoryLength);
      var whole := Reverse(recs) + history;
      var left := Reverse(recs[1..]) + h1;
      assert Reverse(recs) == Reverse(recs[1..]) + [recs[0]];
      assert |left| >= m;
      forall j | 0 <= j < m
        ensures left[j] == whole[j]
      {
        var r := |recs| - 1;
        if j > r {
          assert left[j] == h1[j - r] == history[j - r - 1];
        }
      }
    }
  }

  class ScanScreen {
    const ledger: Ledger
    var scanning: bool
    var lastScan: Option<ScanRecord>
    var scanHistory: seq<ScanRecord>
    var manualInput: string

    /** The history never holds more than ten records. */
    ghost predicate Valid()
      reads this
    {
      |scanHistory| <= HistoryLength
    }

    constructor (ledger: Ledger)
      ensures this.ledger == ledger && Valid()
      ensures !scanning && lastScan == None && scanHistory == [] && manualInput == ""
    {
      this.ledger := ledger;
      scanning := false;
      lastScan := None;
      scanHistory := [];
      manualInput := "";
    }

    /**
     * startScanning: `cameras` is the device count, None when the camera API throws. With
     * no camera nothing changes; a failure leaves the scanner off.
     */
    method StartScanning(cameras: Option<nat>)
      modifies this`scanning
      ensures cameras == Some(0) ==> scanning == old(scanning)
      ensures cameras.None? ==> !scanning
      ensures cameras.Some? && cameras.value > 0 ==> scanning
    {
      match cameras {
        case None =>
          scanning := false;
        case Some(n) =>
          if n > 0 {
            scanning := true;
          }
      }
    }

    method StopScanning()
      modifies this`scanning
      ensures !scanning
    {
      scanning := false;
    }

    method OnManualInput(text: string)
      modifies this`manualInput
      ensures manualInput == text
    {
      manualInput := text;
    }

    /** Show a record as the last scan and push it onto the history. */
    method Record(rec: ScanRecord)
      requires Valid()
      modifies this`lastScan, this`scanHistory
      ensures Valid()
      ensures lastScan == Some(rec) && scanHistory == Remember(old(scanHistory), rec)
    {
      lastScan := Some(rec);
      scanHistory := [rec] + scanHistory[..Min(|scanHistory|, HistoryLength - 1)];
    }

    /**
     * handleScanResult: `parse` is JSON.parse. Ignored text changes nothing; otherwise the
     * ledger scans by id and number, the attempt is recorded, and an accepted scan stops
     * the scanner.
     */
    method HandleScanResult(data: string, parse: string -> Payload, now: Time) returns (result: Option<ScanResult>)
      requires Valid()
      modifies this, ledger
      ensures Valid()
      ensures result.Some? <==> Gate(parse(data)).Some?
      ensures result.None? ==> unchanged(this) && unchanged(ledger)
      ensures result.Some? ==>
        var lookup := Gate(parse(data)).value;
        && ScanOutcome(result.value, ledger.tickets) == Scan(old(ledger.tickets), lookup, now)
        && ledger.toast == Some(ScanToast(old(ledger.tickets), lookup, now))
        && ledger.settings == old(ledger.settings) && ledger.lastGeneration == old(ledger.lastGeneration)
        && lastScan == Some(RecordOf(now, lookup, result.value))
        && scanHistory == Remember(old(scanHistory), lastScan.value)
        && scanning == (old(scanning) && !result.value.success)
        && manualInput == old(manualInput)
    {
      var gate := Gate(parse(data));
      if gate.None? {
        return None;
      }
      var lookup := gate.value;
      var scanned := ledger.ScanTicket(lookup, now);
      Record(RecordOf(now, lookup, scanned));
      if scanned.success {
        StopScanning();
      }
      result := Some(scanned);
    }

    /**
     * handleManualScan: blank input is ignored. Input that parses goes through
     * handleScanResult; input that does not is looked up, untrimmed, as a ticket number,
     * and recorded without stopping the scanner. Either way the input is then cleared.
     */
    method HandleManualScan(parse: string -> Payload, now: Time) returns (result: Option<ScanResult>)
      requires Valid()
      modifies this, ledger
      ensures Valid()
      ensures Blank(old(manualInput)) ==> result.None? && unchanged(this) && unchanged(ledger)
      ensures !Blank(old(manualInput)) ==> manualInput == ""
      ensures !Blank(old(manualInput)) && parse(old(manualInput)).Malformed? ==>
        var lookup := Lookup(None, Some(old(manualInput)));
        && result.Some?
        && ScanOutcome(result.value, ledger.tickets) == Scan(old(ledger.tickets), lookup, now)
        && ledger.toast == Some(ScanToast(old(ledger.tickets), lookup, now))
        && ledger.settings == old(ledger.settings) && ledger.lastGeneration == old(ledger.lastGeneration)
        && lastScan == Some(RecordOf(now, lookup, result.value))
        && scanHistory == Remember(old(scanHistory), lastScan.value)
        && scanning == old(scanning)
      ensures !Blank(old(manualInput)) && !parse(old(manualInput)).Malformed? ==>
        var gate := Gate(parse(old(manualInput)));
        && (result.Some? <==> gate.Some?)
        && (gate.None? ==>
              && unchanged(ledger)
              && lastScan == old(lastScan) && scanHistory == old(scanHistory) && scanning == old(scanning))
        && (gate.Some? ==>
              && ScanOutcome(result.value, ledger.tickets) == Scan(old(ledger.tickets), gate.value, now)
              && ledger.toast == Some(ScanToast(old(ledger.tickets), gate.value, now))
              && ledger.settings == old(ledger.settings) && ledger.lastGeneration == old(ledger.lastGeneration)
              && lastScan == Some(RecordOf(now, gate.value, result.value))
              && scanHistory == Remember(old(scanHistory), lastScan.value)
              && scanning == (old(scanning) && !result.value.success))
    {
      if Trim(manualInput) == "" {
        return None;
      }
      var input := manualInput;
      match parse(input) {
        case Malformed =>
          var lookup := Lookup(None, Some(input));
          var scanned := ledger.ScanTicket(lookup, now);
          Record(RecordOf(now, lookup, scanned));
          result := Some(scanned);
        case _ =>
          result := HandleScanResult(input, parse, now);
      }
      manualInput := "";
    }
  }
}
