/**
 * The Generate page: the count, prefix and extra-information inputs, the 1..200 gate in
 * front of the ledger's generator, the preview of the last batch and its undo control.
 */
module GeneratePage {
  import opened Wrappers
  import opened TicketContext

  /** The most tickets one generation may ask for. */
  const MaxCount: int := 200

  predicate InRange(count: int) {
    1 <= count <= MaxCount
  }

  /**
   * `parseInt(value) || 1`: `parsed` is parseInt's result, None for NaN. NaN and 0 fall
   * back to 1; every other integer, negative or above 200, is kept.
   */
  function CountFromInput(parsed: Option<int>): (count: int)
    ensures count != 0
    ensures parsed.None? || parsed == Some(0) ==> count == 1
    ensures parsed.Some? && parsed.value != 0 ==> count == parsed.value
  {
    match parsed
    case Some(n) => if n == 0 then 1 else n
    case None => 1
  }

  predicate IsLowerLetter(c: char) {
    'a' <= c <= 'z'
  }

  function UpperChar(c: char): (u: char)
    ensures !IsLowerLetter(u)
    ensures !IsLowerLetter(c) ==> u == c
  {
    if IsLowerLetter(c) then (c as int - 'a' as int + 'A' as int) as char else c
  }

  predicate IsUpperCase(s: string) {
    forall i :: 0 <= i < |s| ==> !IsLowerLetter(s[i])
  }

  /** `toUpperCase()` on the ASCII letters: each lower-case letter becomes its capital, the rest stay. */
  function UpperCase(s: string): (r: string)
    ensures |r| == |s| && IsUpperCase(r)
    ensures forall i :: 0 <= i < |s| ==> r[i] == UpperChar(s[i])
  {
    seq(|s|, i requires 0 <= i < |s| => UpperChar(s[i]))
  }

  /** Upper-casing an upper-case text changes nothing, so typing into the field never alters a kept prefix. */
  lemma UpperCaseIdempotent(s: string)
    ensures UpperCase(UpperCase(s)) == UpperCase(s)
    ensures IsUpperCase(s) ==> UpperCase(s) == s
  {
    assert forall i :: 0 <= i < |s| ==> UpperChar(UpperChar(s[i])) == UpperChar(s[i]);
  }

  class GenerateScreen {
    const ledger: Ledger
    var count: int
    var prefix: string
    var extra: string
    var generatedTickets: seq<Ticket>
    var showPreview: bool

    /** The prefix field only ever holds upper-case text, and the count field is never 0. */
    ghost predicate Valid()
      reads this
    {
      IsUpperCase(prefix) && count != 0
    }

    /** The undo control is shown: `lastGeneration && lastGeneration.length > 0`. */
    predicate UndoOffered()
      reads this, ledger
    {
      UndoAvailable(ledger.lastGeneration)
    }

    /** The preview is shown: `showPreview && generatedTickets.length > 0`. */
    predicate PreviewShown()
      reads this
    {
      showPreview && |generatedTickets| > 0
    }

    constructor (ledger: Ledger)
      ensures this.ledger == ledger && Valid()
      ensures count == 10 && prefix == "TIX" && extra == ""
      ensures generatedTickets == [] && !showPreview
    {
      this.ledger := ledger;
      count := 10;
      prefix := "TIX";
      extra := "";
      generatedTickets := [];
      showPreview := false;
    }

    method OnCountInput(parsed: Option<int>)
      requires Valid()
      modifies this`count
      ensures Valid()
      ensures count == CountFromInput(parsed)
    {
      count := CountFromInput(parsed);
    }

    method OnPrefixInput(text: string)
      requires Valid()
      modifies this`prefix
      ensures Valid()
      ensures prefix == UpperCase(text)
    {
      prefix := UpperCase(text);
    }

    method OnExtraInput(text: string)
      modifies this`extra
      ensures extra == text
    {
      extra := text;
    }

    /**
     * handleGenerate: a count outside 1..200 is refused and nothing changes; otherwise the
     * ledger generates `count` tickets, which become the preview and the undoable batch.
     * `ids` are the fresh identifiers the generator will draw.
     */
    method HandleGenerate(ids: seq<Id>, now: Time) returns (accepted: bool)
      requires Valid()
      requires InRange(count) ==> |ids| == count && FreshIds(ids, ledger.tickets)
      modifies this, ledger
      ensures Valid()
      ensures accepted == InRange(count)
      ensures !accepted ==> unchanged(this) && unchanged(ledger)
      ensures accepted ==>
        && generatedTickets == Batch(ids, prefix, extra, NextFree(old(ledger.tickets), prefix), now)
        && |generatedTickets| == count
        && ledger.tickets == generatedTickets + old(ledger.tickets)
        && ledger.lastGeneration == Some(generatedTickets)
        && ledger.settings == old(ledger.settings)
        && ledger.toast == Some(Toast(Generated(count), Success, now))
        && PreviewShown() && UndoOffered()
        && (UniqueNumbers(old(ledger.tickets)) ==> UniqueNumbers(ledger.tickets))
        && (UniqueIds(old(ledger.tickets)) ==> UniqueIds(ledger.tickets))
      ensures count == old(count) && prefix == old(prefix) && extra == old(extra)
    {
      if count < 1 || count > MaxCount {
        return false;
      }
      var tickets := ledger.GenerateTickets(count, prefix, Some(extra), ids, now);
      generatedTickets := tickets;
      showPreview := true;
      accepted := true;
    }

    /** handleUndo: when the ledger undoes the batch, the preview is cleared and hidden. */
    method HandleUndo(now: Time) returns (undone: bool)
      modifies this, ledger
      ensures undone == old(UndoOffered())
      ensures undone ==>
        && generatedTickets == [] && !showPreview && !PreviewShown() && !UndoOffered()
        && ledger.tickets == WithoutIds(old(ledger.tickets), Ids(old(ledger.lastGeneration).value))
        && ledger.lastGeneration == None
        && ledger.toast == Some(Toast(Undone, Success, now))
      ensures !undone ==>
        && generatedTickets == old(generatedTickets) && showPreview == old(showPreview)
        && ledger.tickets == old(ledger.tickets) && ledger.lastGeneration == old(ledger.lastGeneration)
        && ledger.toast == Some(Toast(NothingToUndo, Error, now))
      ensures count == old(count) && prefix == old(prefix) && extra == old(extra)
      ensures ledger.settings == old(ledger.settings)
    {
      var ok := ledger.UndoLastGeneration(now);
      if ok {
        generatedTickets := [];
        showPreview := false;
      }
      undone := ok;
    }
  }

  /** On the page, generating and then undoing restores the ticket list and withdraws the undo control. */
  method GenerateThenUndoOnPage(screen: GenerateScreen, ids: seq<Id>, now: Time)
    requires screen.Valid() && InRange(screen.count)
    requires |ids| == screen.count && FreshIds(ids, screen.ledger.tickets)
    modifies screen, screen.ledger
    ensures screen.ledger.tickets == old(screen.ledger.tickets)
    ensures !screen.UndoOffered() && !screen.PreviewShown()
  {
    var before := screen.ledger.tickets;
    var accepted := screen.HandleGenerate(ids, now);
    var batch := screen.generatedTickets;
    assert WithoutIds(batch + before, Ids(batch)) == before by {
      UndoAfterGenerate(before, ids, screen.prefix, screen.extra, now);
    }
    var undone := screen.HandleUndo(now);
  }
}
