/**
 * The state of the widget's `App` component and the handlers that change it.
 * Each React state setter becomes an assignment to a field of `App`.
 */
module LuckyApp {

  import opened Types
  import opened Amount
  import opened Ledger
  import opened Bags

  /**
   * An opening that has passed the guard and waits for its delayed completion:
   * the bag id and the two settings captured by the handler when it ran.
   */
  datatype PendingOpen = PendingOpen(id: int, minAmount: int, maxAmount: int)

  class App {
    var bags: seq<Bag>
    var history: seq<Session>              // newest first
    var isOpening: bool
    var currentReveal: Option<Session>
    var minAmount: int
    var maxAmount: int
    var scheduled: Option<PendingOpen>     // the completion the delay will run, if any

    /** The invariant every handler keeps. */
    ghost predicate Valid()
      reads this
    {
      |bags| == InitialBagsCount && WellFormed(bags) &&
      (forall i :: 0 <= i < |bags| && bags[i].content.Some? ==> bags[i].content.value in history) &&
      (currentReveal.Some? ==> currentReveal.value in history) &&
      (forall k :: 0 <= k < |history| ==> history[k].amount % 1000 == 0) &&
      (isOpening <==> scheduled.Some?) &&
      (scheduled.Some? ==> forall i :: 0 <= i < |bags| && bags[i].id == scheduled.value.id ==> !bags[i].isOpened)
    }

    /**
     * Mounting: the initial state values, then the effect that creates the
     * bags. The first render, with no bags yet, is not a state of this class.
     */
    constructor ()
      ensures Valid()
      ensures bags == InitialBags() && history == []
      ensures !isOpening && currentReveal == None && scheduled == None
      ensures minAmount == 10000 && maxAmount == 50000
    {
      bags := InitialBags();
      history := [];
      isOpening := false;
      currentReveal := None;
      minAmount := 10000;
      maxAmount := 50000;
      scheduled := None;
    }

    /**
     * The synchronous part of `openBag(id)`: unless the guard refuses, mark the
     * widget busy and schedule the completion with the current settings.
     */
    method StartOpen(id: int)
      requires Valid()
      modifies this
      ensures Valid()
      ensures old(OpenRefused(isOpening, bags, id)) ==> unchanged(this)
      ensures !old(OpenRefused(isOpening, bags, id)) ==>
        isOpening && scheduled == Some(PendingOpen(id, minAmount, maxAmount))
      ensures bags == old(bags) && history == old(history) && currentReveal == old(currentReveal)
      ensures minAmount == old(minAmount) && maxAmount == old(maxAmount)
      ensures old(isOpening) || (0 <= id < |bags| && old(bags[id].isOpened)) <==> unchanged(this)
    {
      RefusedOnWellFormed(isOpening, bags, id);
      if OpenRefused(isOpening, bags, id) {
        return;
      }
      isOpening := true;
      scheduled := Some(PendingOpen(id, minAmount, maxAmount));
    }

    /**
     * The delayed callback of `openBag`: draw the amount with the captured
     * settings (`offset` is the random draw), open the bag, prepend the session
     * to the history, show it, and clear the busy flag.
     */
    method CompleteOpen(offset: int, sessionId: string, timestamp: int)
      requires Valid() && scheduled.Some?
      requires 0 <= offset <= High(scheduled.value.minAmount, scheduled.value.maxAmount)
                              - Low(scheduled.value.minAmount, scheduled.value.maxAmount)
      modifies this
      ensures Valid()
      ensures var p := old(scheduled).value;
        var s := Session(sessionId, RandomAmount(p.minAmount, p.maxAmount, offset), timestamp);
        bags == MarkOpened(old(bags), p.id, s) && history == [s] + old(history) && currentReveal == Some(s)
      ensures !isOpening && scheduled == None
      ensures minAmount == old(minAmount) && maxAmount == old(maxAmount)
      ensures TotalMoney(history) == old(TotalMoney(history)) + history[0].amount
      ensures forall i :: 0 <= i < |bags| && old(bags[i].isOpened) ==> bags[i] == old(bags[i])
      ensures 0 <= old(scheduled).value.id < |bags| ==>
        bags[old(scheduled).value.id].isOpened && bags[old(scheduled).value.id].content == Some(history[0])
      ensures !(0 <= old(scheduled).value.id < |bags|) ==> bags == old(bags)
    {
      var p := scheduled.value;
      var amount := RandomAmount(p.minAmount, p.maxAmount, offset);
      var s := Session(sessionId, amount, timestamp);
      MarkOpenedWellFormed(bags, p.id, s);
      TotalPrepend(s, history);
      bags := MarkOpened(bags, p.id, s);
      history := [s] + history;
      currentReveal := Some(s);
      isOpening := false;
      scheduled := None;
    }

    /**
     * `resetGame`, with the answer of the confirmation dialog as `confirmed`:
     * every bag closes and loses its content and the reveal is dismissed; the
     * history, the busy flag and any scheduled completion stay as they were.
     */
    method ResetGame(confirmed: bool)
      requires Valid()
      modifies this
      ensures Valid()
      ensures !confirmed ==> unchanged(this)
      ensures confirmed ==> bags == ClearBags(old(bags)) && bags == InitialBags() && currentReveal == None
      ensures history == old(history) && TotalMoney(history) == old(TotalMoney(history))
      ensures isOpening == old(isOpening) && scheduled == old(scheduled)
      ensures minAmount == old(minAmount) && maxAmount == old(maxAmount)
    {
      if confirmed {
        ClearBagsIsInitial(bags);
        bags := ClearBags(bags);
        currentReveal := None;
      }
    }

    /** The "continue" button of the reveal dialog. */
    method DismissReveal()
      requires Valid()
      modifies this`currentReveal
      ensures Valid() && currentReveal == None
    {
      currentReveal := None;
    }

    /** The lower-bound input of the settings dialog; any integer is accepted. */
    method SetMinAmount(value: int)
      requires Valid()
      modifies this`minAmount
      ensures Valid() && minAmount == value
    {
      minAmount := value;
    }

    /** The upper-bound input of the settings dialog; any integer is accepted. */
    method SetMaxAmount(value: int)
      requires Valid()
      modifies this`maxAmount
      ensures Valid() && maxAmount == value
    {
      maxAmount := value;
    }
  }

  /**
   * A session of clicks, as a caller sees it through the contracts above:
   * bag 3 opens once, a second click on it is refused, an unknown id still
   * logs a session, and a confirmed reset closes the bags but keeps the total.
   */
  method ClickThrough(t: int)
  {
    var app := new App();
    app.StartOpen(3);
    assert app.scheduled == Some(PendingOpen(3, 10000, 50000));
    app.CompleteOpen(12345, "k3", t);
    var first := app.history[0];
    assert app.bags[3].content == Some(first) && |app.history| == 1;
    app.StartOpen(3);
    assert !app.isOpening;
    app.StartOpen(42);
    app.CompleteOpen(0, "k42", t);
    assert app.bags[3].content == Some(first) && |app.history| == 2;
    var total := TotalMoney(app.history);
    app.ResetGame(true);
    assert !app.bags[3].isOpened && TotalMoney(app.history) == total;
  }
}
