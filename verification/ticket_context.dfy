/**
 * The ticket ledger held by TicketProvider: the tickets, the settings, the single-slot
 * undo buffer and the single-slot notification, with the operations that change them.
 */
module TicketContext {
  import opened Wrappers
  import opened Seqs
  import opened Numbering

  /** An opaque ticket identifier (a UUID in the running system). */
  type Id = string

  /** An abstract clock reading; the system stores ISO-8601 strings and Date.now() values. */
  type Time = nat

  datatype Ticket = Ticket(id: Id, number: string, generatedAt: Time, extra: string, scannedAt: Option<Time>)

  /** `ticket.scannedAt` is truthy. */
  predicate IsScanned(t: Ticket) {
    t.scannedAt.Some?
  }

  predicate IsUnscanned(t: Ticket) {
    t.scannedAt.None?
  }

  /** A settings value: the organisation name is text, the maximum user count a number. */
  datatype SettingValue = Text(text: string) | Count(count: int)

  /** A settings object: its keys and their values. */
  type Settings = map<string, SettingValue>

  function DefaultSettings(): Settings {
    map["organizationName" := Text("My Organization"), "maxUsers" := Count(1)]
  }

  datatype ToastKind = Info | Success | Warning | Error

  /** The notifications the ledger raises, one per outcome. */
  datatype Message =
    | Generated(count: int)
    | NotFound
    | AlreadyScanned(at: Time)
    | ScannedOk(number: string)
    | NothingToUndo
    | Undone
    | Exported
    | Imported
    | ImportFailed
    | Cleared
    | SettingsUpdated

  datatype Toast = Toast(message: Message, kind: ToastKind, id: Time)

  /** The `{id, number}` a scan looks tickets up by; either field may be absent. */
  datatype Lookup = Lookup(id: Option<Id>, number: Option<string>)

  /** What scanTicket returns; `duplicate` is false where the source leaves it out. */
  datatype ScanResult = ScanResult(success: bool, message: string, ticket: Option<Ticket>, duplicate: bool)

  /** A scan's result together with the ticket list it leaves behind. */
  datatype ScanOutcome = ScanOutcome(result: ScanResult, tickets: seq<Ticket>)

  /** The export document `{tickets, settings, exportedAt, version}`. */
  datatype ExportDoc = ExportDoc(tickets: seq<Ticket>, settings: Settings, exportedAt: Time, version: int)

  /**
   * The result of JSON.parse on an imported file: malformed text, `null`, or any other
   * value with its `tickets` and `settings` properties (absent for non-objects).
   */
  datatype ImportInput = Unparsable | JsonNull | JsonValue(tickets: Option<seq<Ticket>>, settings: Option<Settings>)

  // ---------------------------------------------------------------------------
  // Ticket list queries

  function Numbers(tickets: seq<Ticket>): (r: seq<string>)
    ensures |r| == |tickets| && forall i :: 0 <= i < |tickets| ==> r[i] == tickets[i].number
  {
    seq(|tickets|, i requires 0 <= i < |tickets| => tickets[i].number)
  }

  function Ids(tickets: seq<Ticket>): (r: seq<Id>)
    ensures |r| == |tickets| && forall i :: 0 <= i < |tickets| ==> r[i] == tickets[i].id
  {
    seq(|tickets|, i requires 0 <= i < |tickets| => tickets[i].id)
  }

  predicate UniqueNumbers(tickets: seq<Ticket>) {
    forall i, j :: 0 <= i < |tickets| && 0 <= j < |tickets| && i != j ==> tickets[i].number != tickets[j].number
  }

  predicate UniqueIds(tickets: seq<Ticket>) {
    forall i, j :: 0 <= i < |tickets| && 0 <= j < |tickets| && i != j ==> tickets[i].id != tickets[j].id
  }

  /** What the fresh-id supplier guarantees: the new ids are distinct and none is in use. */
  predicate FreshIds(ids: seq<Id>, tickets: seq<Ticket>) {
    (forall i, j :: 0 <= i < |ids| && 0 <= j < |ids| && i != j ==> ids[i] != ids[j])
    && forall i, j :: 0 <= i < |ids| && 0 <= j < |tickets| ==> ids[i] != tickets[j].id
  }

  // ---------------------------------------------------------------------------
  // Generation

  /** How many times `for (let i = 0; i < count; i++)` runs. */
  function BatchSize(count: int): nat {
    if count < 0 then 0 else count
  }

  /** `extra || ''`. */
  function ExtraOrEmpty(extra: Option<string>): string {
    extra.GetOr("")
  }

  /** The allocator's result for the current tickets. */
  function NextFree(tickets: seq<Ticket>, prefix: string): nat {
    HighestSequence(Numbers(tickets), prefix) + 1
  }

  /** The batch generated from the supplied ids, numbered consecutively from `start`. */
  function Batch(ids: seq<Id>, prefix: string, extra: string, start: nat, now: Time): (b: seq<Ticket>)
    ensures |b| == |ids|
  {
    seq(|ids|, i requires 0 <= i < |ids| => Ticket(ids[i], TicketNumber(prefix, start + i), now, extra, None))
  }

  /** The generation loop: one ticket per supplied id, the candidate number advancing by one each time. */
  method BuildBatch(count: int, ids: seq<Id>, prefix: string, extra: string, start: nat, now: Time)
    returns (batch: seq<Ticket>)
    requires |ids| == BatchSize(count)
    ensures batch == Batch(ids, prefix, extra, start, now)
  {
    batch := [];
    var next := start;
    var i := 0;
    while i < count
      invariant 0 <= i <= |ids|
      invariant next == start + i
      invariant batch == Batch(ids[..i], prefix, extra, start, now)
    {
      var ticket := Ticket(ids[i], TicketNumber(prefix, next), now, extra, None);
      assert Batch(ids[..i + 1], prefix, extra, start, now) == batch + [ticket];
      batch := batch + [ticket];
      next := next + 1;
      i := i + 1;
    }
    assert ids[..i] == ids;
  }

  /** Each generated number reads back as the allocator's result plus its position in the batch. */
  lemma BatchContinuesSequence(tickets: seq<Ticket>, ids: seq<Id>, prefix: string, extra: string, now: Time)
    ensures var b := Batch(ids, prefix, extra, NextFree(tickets, prefix), now);
      forall i :: 0 <= i < |b| ==>
        && SequenceOf(b[i].number, prefix) == Some(NextFree(tickets, prefix) + i)
        && b[i].id == ids[i] && b[i].extra == extra && b[i].scannedAt == None
  {
    var start := NextFree(tickets, prefix);
    var b := Batch(ids, prefix, extra, start, now);
    forall i | 0 <= i < |b|
      ensures SequenceOf(b[i].number, prefix) == Some(start + i)
    {
      ParseTicketNumber(prefix, start + i);
    }
  }

  /** No generated number repeats a number already in the ledger. */
  lemma GeneratedNumbersAreNew(tickets: seq<Ticket>, ids: seq<Id>, prefix: string, extra: string, now: Time)
    ensures var b := Batch(ids, prefix, extra, NextFree(tickets, prefix), now);
      forall i, j :: 0 <= i < |b| && 0 <= j < |tickets| ==> b[i].number != tickets[j].number
  {
    var start := NextFree(tickets, prefix);
    var b := Batch(ids, prefix, extra, start, now);
    var numbers := Numbers(tickets);
    forall i | 0 <= i < |b|
      ensures forall j :: 0 <= j < |tickets| ==> b[i].number != tickets[j].number
    {
      NumberAboveHighestIsUnused(numbers, prefix, start + i);
      assert b[i].number == TicketNumber(prefix, start + i);
    }
  }

  /**
   * Texts that parse to different sequence values are different texts. Stating this apart
   * keeps the ticket-number strings out of BatchNumbersDistinct's proof, which otherwise
   * runs out of resource on some solver seeds.
   */
  lemma ParsedApart(a: string, b: string, prefix: string)
    requires SequenceOf(a, prefix) != SequenceOf(b, prefix)
    ensures a != b
  {
  }

  /** The i-th number of a batch reads back as its start plus i. */
  lemma BatchNumberAt(ids: seq<Id>, prefix: string, extra: string, start: nat, now: Time, i: nat)
    requires i < |ids|
    ensures SequenceOf(Batch(ids, prefix, extra, start, now)[i].number, prefix) == Some(start + i)
  {
    ParseTicketNumber(prefix, start + i);
  }

  /** No two tickets of one batch share a number. */
  lemma {:induction false} BatchNumbersDistinct(ids: seq<Id>, prefix: string, extra: string, start: nat, now: Time)
    ensures var b := Batch(ids, prefix, extra, start, now);
      forall i, j :: 0 <= i < |b| && 0 <= j < |b| && i != j ==> b[i].number != b[j].number
  {
    var b := Batch(ids, prefix, extra, start, now);
    forall i, j | 0 <= i < |b| && 0 <= j < |b| && i != j
      ensures b[i].number != b[j].number
    {
      BatchNumberAt(ids, prefix, extra, start, now, i);
      BatchNumberAt(ids, prefix, extra, start, now, j);
      ParsedApart(b[i].number, b[j].number, prefix);
    }
  }

  /** Prepending tickets keeps numbers (ids) unique when the new ones are unique and clash with none of the old. */
  lemma PrependKeepsUnique(b: seq<Ticket>, tickets: seq<Ticket>)
    ensures UniqueNumbers(b) && UniqueNumbers(tickets)
      && (forall i, j :: 0 <= i < |b| && 0 <= j < |tickets| ==> b[i].number != tickets[j].number)
      ==> UniqueNumbers(b + tickets)
    ensures UniqueIds(b) && UniqueIds(tickets)
      && (forall i, j :: 0 <= i < |b| && 0 <= j < |tickets| ==> b[i].id != tickets[j].id)
      ==> UniqueIds(b + tickets)
  {
    var all := b + tickets;
    assert forall i :: |b| <= i < |all| ==> all[i] == tickets[i - |b|];
  }

  /** Generation keeps ticket numbers unique, and with fresh ids keeps identifiers unique. */
  lemma GenerateKeepsUnique(tickets: seq<Ticket>, ids: seq<Id>, prefix: string, extra: string, now: Time)
    ensures var b := Batch(ids, prefix, extra, NextFree(tickets, prefix), now);
      && (UniqueNumbers(tickets) ==> UniqueNumbers(b + tickets))
      && (UniqueIds(tickets) && FreshIds(ids, tickets) ==> UniqueIds(b + tickets))
  {
    var b := Batch(ids, prefix, extra, NextFree(tickets, prefix), now);
    GeneratedNumbersAreNew(tickets, ids, prefix, extra, now);
    BatchNumbersDistinct(ids, prefix, extra, NextFree(tickets, prefix), now);
    assert forall i :: 0 <= i < |b| ==> b[i].id == ids[i];
    PrependKeepsUnique(b, tickets);
  }

  /**
   * After a batch is prepended, the allocator continues right after it: a second batch of
   * the same prefix starts where the first one ended.
   */
  lemma NextFreeAfterBatch(tickets: seq<Ticket>, ids: seq<Id>, prefix: string, extra: string, now: Time)
    ensures var start := NextFree(tickets, prefix);
      NextFree(Batch(ids, prefix, extra, start, now) + tickets, prefix) == start + |ids|
  {
    var start := NextFree(tickets, prefix);
    var b := Batch(ids, prefix, extra, start, now);
    var all := Numbers(b + tickets);
    var before := Numbers(tickets);
    HighestSequenceBounds(before, prefix);
    BatchContinuesSequence(tickets, ids, prefix, extra, now);
    if ids == [] {
      assert b + tickets == tickets;
    } else {
      var v := start + |ids| - 1;
      forall i | 0 <= i < |all| && SequenceOf(all[i], prefix).Some?
        ensures SequenceOf(all[i], prefix).value <= v
      {
        if i >= |b| {
          assert all[i] == before[i - |b|];
        }
      }
      assert all[|b| - 1] == b[|b| - 1].number;
      HighestSequenceUnique(all, prefix, v);
    }
  }

  // ---------------------------------------------------------------------------
  // Scanning

  /** `t.id === id || t.number === number`. */
  predicate Matches(t: Ticket, lookup: Lookup) {
    lookup.id == Some(t.id) || lookup.number == Some(t.number)
  }

  /** `tickets.findIndex(...)`: the first ticket matching the lookup, or -1. */
  function FirstMatch(tickets: seq<Ticket>, lookup: Lookup): (k: int)
    ensures -1 <= k < |tickets|
    ensures k >= 0 ==> Matches(tickets[k], lookup)
    ensures forall j :: 0 <= j < |tickets| && (k == -1 || j < k) ==> !Matches(tickets[j], lookup)
  {
    if tickets == [] then -1
    else if Matches(tickets[0], lookup) then 0
    else
      var k := FirstMatch(tickets[1..], lookup);
      if k == -1 then -1 else k + 1
  }

  /**
   * The scan decision: not found and duplicate leave the tickets as they are; an accepted
   * scan stamps the first match, and only it, with `now`.
   */
  function Scan(tickets: seq<Ticket>, lookup: Lookup, now: Time): (o: ScanOutcome)
    ensures |o.tickets| == |tickets|
    ensures forall i :: 0 <= i < |tickets| ==> o.tickets[i].(scannedAt := tickets[i].scannedAt) == tickets[i]
    ensures forall i :: 0 <= i < |tickets| && IsScanned(tickets[i]) ==> o.tickets[i] == tickets[i]
    ensures (forall i :: 0 <= i < |tickets| ==> !Matches(tickets[i], lookup)) ==>
      !o.result.success && !o.result.duplicate && o.result.ticket == None && o.tickets == tickets
    ensures var k := FirstMatch(tickets, lookup);
      k >= 0 && IsScanned(tickets[k]) ==>
        !o.result.success && o.result.duplicate && o.result.ticket == Some(tickets[k]) && o.tickets == tickets
    ensures var k := FirstMatch(tickets, lookup);
      k >= 0 && IsUnscanned(tickets[k]) ==>
        && o.result.success && !o.result.duplicate
        && o.tickets[k].scannedAt == Some(now)
        && (forall i :: 0 <= i < |tickets| && i != k ==> o.tickets[i] == tickets[i])
        && o.result.ticket == Some(o.tickets[k])
    ensures o.result.success <==> exists i :: 0 <= i < |tickets| && tickets[i] != o.tickets[i]
  {
    var k := FirstMatch(tickets, lookup);
    if k == -1 then
      ScanOutcome(ScanResult(false, "Ticket not found", None, false), tickets)
    else if IsScanned(tickets[k]) then
      ScanOutcome(ScanResult(false, "Already scanned", Some(tickets[k]), true), tickets)
    else
      var updated := tickets[k := tickets[k].(scannedAt := Some(now))];
      ScanOutcome(ScanResult(true, "Scanned successfully", Some(updated[k]), false), updated)
  }

  /** The notification a scan raises. */
  function ScanToast(tickets: seq<Ticket>, lookup: Lookup, now: Time): (t: Toast)
    ensures t.id == now
    ensures t.kind == Success <==> Scan(tickets, lookup, now).result.success
    ensures t.kind == Warning <==> Scan(tickets, lookup, now).result.duplicate
    ensures t.kind == Error <==> Scan(tickets, lookup, now).result.ticket.None?
    ensures var found := Scan(tickets, lookup, now).result.ticket;
      t.message.AlreadyScanned? ==> found.Some? && found.value.scannedAt == Some(t.message.at)
    ensures var found := Scan(tickets, lookup, now).result.ticket;
      t.message.ScannedOk? ==> found.Some? && found.value.number == t.message.number
    ensures var o := Scan(tickets, lookup, now).result;
      && (o.ticket.None? ==> t.message == NotFound)
      && (o.duplicate ==> o.ticket.Some? && o.ticket.value.scannedAt.Some?
                          && t.message == AlreadyScanned(o.ticket.value.scannedAt.value))
      && (o.success ==> o.ticket.Some? && t.message == ScannedOk(o.ticket.value.number))
  {
    var k := FirstMatch(tickets, lookup);
    if k == -1 then Toast(NotFound, Error, now)
    else if IsScanned(tickets[k]) then Toast(AlreadyScanned(tickets[k].scannedAt.value), Warning, now)
    else Toast(ScannedOk(tickets[k].number), Success, now)
  }

  /** A second scan with the same lookup after an accepted one is a duplicate that keeps the first stamp. */
  lemma RescanIsDuplicate(tickets: seq<Ticket>, lookup: Lookup, now: Time, later: Time)
    requires Scan(tickets, lookup, now).result.success
    ensures var first := Scan(tickets, lookup, now);
      var second := Scan(first.tickets, lookup, later);
      && !second.result.success && second.result.duplicate
      && second.tickets == first.tickets
      && second.result.ticket == first.result.ticket
      && second.result.ticket.value.scannedAt == Some(now)
  {
    var first := Scan(tickets, lookup, now);
    var k := FirstMatch(tickets, lookup);
    assert forall i :: 0 <= i < |tickets| ==> (Matches(first.tickets[i], lookup) <==> Matches(tickets[i], lookup));
    assert FirstMatch(first.tickets, lookup) == k;
  }

  /** Scanning keeps ticket numbers and identifiers unique. */
  lemma ScanKeepsUnique(tickets: seq<Ticket>, lookup: Lookup, now: Time)
    ensures var o := Scan(tickets, lookup, now);
      && Numbers(o.tickets) == Numbers(tickets) && Ids(o.tickets) == Ids(tickets)
      && (UniqueNumbers(tickets) ==> UniqueNumbers(o.tickets))
      && (UniqueIds(tickets) ==> UniqueIds(o.tickets))
  {
    var o := Scan(tickets, lookup, now);
    assert forall i :: 0 <= i < |tickets| ==>
      o.tickets[i].number == tickets[i].number && o.tickets[i].id == tickets[i].id;
  }

  // ---------------------------------------------------------------------------
  // Undo

  /** Whether a batch is remembered: `lastGeneration` is neither null nor empty. */
  predicate UndoAvailable(last: Option<seq<Ticket>>) {
    last.Some? && |last.value| > 0
  }

  /** `t => !lastIds.includes(t.id)`. */
  function NotIn(ids: seq<Id>): Ticket -> bool {
    (t: Ticket) => t.id !in ids
  }

  /** The tickets whose id is not among `ids`, in their original order. */
  function WithoutIds(tickets: seq<Ticket>, ids: seq<Id>): (r: seq<Ticket>)
    ensures forall t :: t in r <==> t in tickets && t.id !in ids
  {
    Filter(tickets, NotIn(ids))
  }

  /**
   * Removing the ids of a batch from the batch followed by other tickets leaves exactly the
   * other tickets, even when batch entries were scanned in the meantime.
   */
  lemma UndoRemovesExactlyBatch(batch: seq<Ticket>, rest: seq<Ticket>, ids: seq<Id>)
    requires forall t :: t in batch ==> t.id in ids
    requires forall t :: t in rest ==> t.id !in ids
    ensures WithoutIds(batch + rest, ids) == rest
  {
    FilterAppend(batch, rest, NotIn(ids));
    FilterDropsAll(batch, NotIn(ids));
    FilterKeepsAll(rest, NotIn(ids));
  }

  /** Undo right after a generation with fresh ids gives back the tickets from before it. */
  lemma UndoAfterGenerate(tickets: seq<Ticket>, ids: seq<Id>, prefix: string, extra: string, now: Time)
    requires FreshIds(ids, tickets)
    ensures var b := Batch(ids, prefix, extra, NextFree(tickets, prefix), now);
      WithoutIds(b + tickets, Ids(b)) == tickets
  {
    var b := Batch(ids, prefix, extra, NextFree(tickets, prefix), now);
    assert Ids(b) == ids;
    forall t | t in tickets ensures t.id !in ids {
      var j :| 0 <= j < |tickets| && tickets[j] == t;
    }
    UndoRemovesExactlyBatch(b, tickets, ids);
  }

  function NumberOf(t: Ticket): string {
    t.number
  }

  function IdOf(t: Ticket): Id {
    t.id
  }

  /** Undo keeps ticket numbers and identifiers unique. */
  lemma UndoKeepsUnique(tickets: seq<Ticket>, ids: seq<Id>)
    ensures UniqueNumbers(tickets) ==> UniqueNumbers(WithoutIds(tickets, ids))
    ensures UniqueIds(tickets) ==> UniqueIds(WithoutIds(tickets, ids))
  {
    var r := WithoutIds(tickets, ids);
    if UniqueNumbers(tickets) {
      assert DistinctBy(tickets, NumberOf);
      FilterKeepsDistinct(tickets, NotIn(ids), NumberOf);
      assert forall i :: 0 <= i < |r| ==> NumberOf(r[i]) == r[i].number;
    }
    if UniqueIds(tickets) {
      assert DistinctBy(tickets, IdOf);
      FilterKeepsDistinct(tickets, NotIn(ids), IdOf);
      assert forall i :: 0 <= i < |r| ==> IdOf(r[i]) == r[i].id;
    }
  }

  // ---------------------------------------------------------------------------
  // Settings and import

  /** `{...current, ...patch}`: patched keys take the patch's value, the others keep theirs. */
  function Merge(current: Settings, patch: Settings): (r: Settings)
    ensures r.Keys == current.Keys + patch.Keys
    ensures forall k :: k in patch ==> r[k] == patch[k]
    ensures forall k :: k in current && k !in patch ==> r[k] == current[k]
  {
    current + patch
  }

  /** JSON.parse(JSON.stringify(doc)) as far as import reads it: both fields are present and intact. */
  function Reread(doc: ExportDoc): ImportInput {
    JsonValue(Some(doc.tickets), Some(doc.settings))
  }

  // ---------------------------------------------------------------------------
  // The ledger object

  class Ledger {
    var tickets: seq<Ticket>
    var settings: Settings
    var toast: Option<Toast>
    var lastGeneration: Option<seq<Ticket>>

    /** The state before anything is loaded: no tickets, default settings. */
    constructor ()
      ensures tickets == [] && settings == DefaultSettings()
      ensures toast == None && lastGeneration == None
    {
      tickets := [];
      settings := DefaultSettings();
      toast := None;
      lastGeneration := None;
    }

    method ShowToast(message: Message, kind: ToastKind, now: Time)
      modifies this`toast
      ensures toast == Some(Toast(message, kind, now))
    {
      toast := Some(Toast(message, kind, now));
    }

    method HideToast()
      modifies this`toast
      ensures toast == None
    {
      toast := None;
    }

    /**
     * generateTickets: `ids` are the values the fresh-id supplier yields during the call.
     * The batch is prepended and becomes the only undoable generation.
     */
    method GenerateTickets(count: int, prefix: string, extra: Option<string>, ids: seq<Id>, now: Time)
      returns (batch: seq<Ticket>)
      requires |ids| == BatchSize(count)
      requires FreshIds(ids, tickets)
      modifies this
      ensures batch == Batch(ids, prefix, ExtraOrEmpty(extra), NextFree(old(tickets), prefix), now)
      ensures tickets == batch + old(tickets)
      ensures lastGeneration == Some(batch)
      ensures settings == old(settings)
      ensures toast == Some(Toast(Generated(count), Success, now))
      ensures UniqueNumbers(old(tickets)) ==> UniqueNumbers(tickets)
      ensures UniqueIds(old(tickets)) ==> UniqueIds(tickets)
    {
      var current := tickets;
      var next := NextNumber(Numbers(current), prefix);
      batch := BuildBatch(count, ids, prefix, ExtraOrEmpty(extra), next, now);
      var updated := batch + current;
      assert (UniqueNumbers(current) ==> UniqueNumbers(updated))
          && (UniqueIds(current) ==> UniqueIds(updated)) by {
        GenerateKeepsUnique(current, ids, prefix, ExtraOrEmpty(extra), now);
      }
      tickets := updated;
      lastGeneration := Some(batch);
      ShowToast(Generated(count), Success, now);
    }

    /** scanTicket: look the ticket up and accept, refuse as duplicate, or report it missing. */
    method ScanTicket(lookup: Lookup, now: Time) returns (result: ScanResult)
      modifies this
      ensures ScanOutcome(result, tickets) == Scan(old(tickets), lookup, now)
      ensures toast == Some(ScanToast(old(tickets), lookup, now))
      ensures settings == old(settings) && lastGeneration == old(lastGeneration)
    {
      var index := FirstMatch(tickets, lookup);
      if index == -1 {
        ShowToast(NotFound, Error, now);
        return ScanResult(false, "Ticket not found", None, false);
      }
      var ticket := tickets[index];
      if ticket.scannedAt.Some? {
        ShowToast(AlreadyScanned(ticket.scannedAt.value), Warning, now);
        return ScanResult(false, "Already scanned", Some(ticket), true);
      }
      var updated := tickets;
      updated := updated[index := ticket.(scannedAt := Some(now))];
      tickets := updated;
      ShowToast(ScannedOk(ticket.number), Success, now);
      result := ScanResult(true, "Scanned successfully", Some(updated[index]), false);
    }

    /** undoLastGeneration: remove every ticket whose id is in the remembered batch, once. */
    method UndoLastGeneration(now: Time) returns (ok: bool)
      modifies this
      ensures ok == UndoAvailable(old(lastGeneration))
      ensures !ok ==> (tickets == old(tickets) && lastGeneration == old(lastGeneration)
                       && toast == Some(Toast(NothingToUndo, Error, now)))
      ensures ok ==> (tickets == WithoutIds(old(tickets), Ids(old(lastGeneration).value))
                      && lastGeneration == None && toast == Some(Toast(Undone, Success, now)))
      ensures settings == old(settings)
      ensures UniqueNumbers(old(tickets)) ==> UniqueNumbers(tickets)
      ensures UniqueIds(old(tickets)) ==> UniqueIds(tickets)
    {
      if lastGeneration.None? || |lastGeneration.value| == 0 {
        ShowToast(NothingToUndo, Error, now);
        return false;
      }
      var lastIds := Ids(lastGeneration.value);
      UndoKeepsUnique(tickets, lastIds);
      tickets := WithoutIds(tickets, lastIds);
      lastGeneration := None;
      ShowToast(Undone, Success, now);
      ok := true;
    }

    /** exportData, data part: the document offered for download. */
    method ExportData(now: Time) returns (doc: ExportDoc)
      modifies this`toast
      ensures doc == ExportDoc(tickets, settings, now, 1)
      ensures toast == Some(Toast(Exported, Success, now))
    {
      doc := ExportDoc(tickets, settings, now, 1);
      ShowToast(Exported, Success, now);
    }

    /**
     * importData, data part: a parse failure (or a `null` document, whose property access
     * throws) changes nothing; otherwise each present field replaces its part wholesale.
     */
    method ImportData(input: ImportInput, now: Time) returns (ok: bool)
      modifies this
      ensures ok == input.JsonValue?
      ensures !ok ==> tickets == old(tickets) && settings == old(settings) && toast == Some(Toast(ImportFailed, Error, now))
      ensures ok ==> (tickets == input.tickets.GetOr(old(tickets)) && settings == input.settings.GetOr(old(settings))
                      && toast == Some(Toast(Imported, Success, now)))
      ensures lastGeneration == old(lastGeneration)
    {
      match input {
        case JsonValue(importedTickets, importedSettings) =>
          if importedTickets.Some? {
            tickets := importedTickets.value;
          }
          if importedSettings.Some? {
            settings := importedSettings.value;
          }
          ShowToast(Imported, Success, now);
          ok := true;
        case _ =>
          ShowToast(ImportFailed, Error, now);
          ok := false;
      }
    }

    /** clearAllData: no tickets, nothing to undo, settings untouched. */
    method ClearAllData(now: Time)
      modifies this
      ensures tickets == [] && lastGeneration == None
      ensures settings == old(settings)
      ensures toast == Some(Toast(Cleared, Success, now))
    {
      tickets := [];
      lastGeneration := None;
      ShowToast(Cleared, Success, now);
    }

    /** updateSettings: shallow merge of the given keys into the settings. */
    method UpdateSettings(patch: Settings, now: Time)
      modifies this
      ensures settings == Merge(old(settings), patch)
      ensures tickets == old(tickets) && lastGeneration == old(lastGeneration)
      ensures toast == Some(Toast(SettingsUpdated, Success, now))
    {
      settings := settings + patch;
      ShowToast(SettingsUpdated, Success, now);
    }
  }

  /** Importing an exported document into a ledger gives it the exported tickets and settings. */
  method ExportThenImport(source: Ledger, target: Ledger, now: Time, later: Time)
    modifies source, target
    ensures target.tickets == old(source.tickets) && target.settings == old(source.settings)
    ensures target.lastGeneration == old(target.lastGeneration)
  {
    var doc := source.ExportData(now);
    var ok := target.ImportData(Reread(doc), later);
    assert ok;
  }

  /** Generate followed by undo restores the tickets, and a second undo fails. */
  method GenerateThenUndo(ledger: Ledger, count: int, prefix: string, ids: seq<Id>, now: Time)
    returns (again: bool)
    requires |ids| == BatchSize(count) && count > 0
    requires FreshIds(ids, ledger.tickets)
    modifies ledger
    ensures ledger.tickets == old(ledger.tickets) && ledger.lastGeneration == None
    ensures !again
  {
    var batch := ledger.GenerateTickets(count, prefix, None, ids, now);
    UndoAfterGenerate(old(ledger.tickets), ids, prefix, "", now);
    assert Ids(batch) == ids;
    var ok := ledger.UndoLastGeneration(now);
    assert ok;
    again := ledger.UndoLastGeneration(now);
  }
}
