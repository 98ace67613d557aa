/** Reservation of auto-debits that fall due in the rest of the current
    billing cycle.  The calendar is reduced to two integers: the day of the
    month today and the number of days in this month. */
module AutoDebits {
  import opened Common
  import opened Cards

  /** The closing day of the cycle: the statement day when one is set (a day
      of 0 counts as unset), otherwise the last day of the month. */
  function CloseDay(statementDay: Option<int>, daysInMonth: int): (c: int)
    ensures statementDay.Some? && statementDay.value != 0 ==> c == statementDay.value
    ensures statementDay.None? || statementDay.value == 0 ==> c == daysInMonth
  {
    match statementDay
    case Some(d) => if d != 0 then d else daysInMonth
    case None => daysInMonth
  }

  /** The days of the month from today up to the close day, inclusive; when
      the close day is before today the cycle runs over the month end and the
      window is today..daysInMonth together with 1..closeDay. */
  function Window(today: int, closeDay: int, daysInMonth: int): (w: set<int>)
    ensures today <= closeDay ==> forall d :: d in w <==> today <= d <= closeDay
    ensures today > closeDay ==>
              forall d :: d in w <==> today <= d <= daysInMonth || 1 <= d <= closeDay
  {
    if today <= closeDay then DayRange(today, closeDay)
    else DayRange(today, daysInMonth) + DayRange(1, closeDay)
  }

  /** {lo, ..., hi}, empty when hi < lo. */
  function DayRange(lo: int, hi: int): (r: set<int>)
    ensures forall d :: d in r <==> lo <= d <= hi
    decreases hi - lo
  {
    if hi < lo then {} else DayRange(lo, hi - 1) + {hi}
  }

  /** The amounts of the debits whose day lies in the window, in list order. */
  function Due(debits: seq<AutoDebit>, window: set<int>): seq<real> {
    if |debits| == 0 then []
    else if debits[0].dayOfMonth in window then [debits[0].amount] + Due(debits[1..], window)
    else Due(debits[1..], window)
  }

  /** Total of the auto-debits that fire between today and the close of the
      cycle; nothing is reserved when there are no auto-debits. */
  function PendingInCycle(debits: seq<AutoDebit>, today: int, statementDay: Option<int>,
                          daysInMonth: int): (r: real)
    ensures r == Sum(Due(debits, Window(today, CloseDay(statementDay, daysInMonth), daysInMonth)))
  {
    if |debits| == 0 then 0.0
    else
      var rest := PendingInCycle(debits[1..], today, statementDay, daysInMonth);
      if debits[0].dayOfMonth in Window(today, CloseDay(statementDay, daysInMonth), daysInMonth)
      then debits[0].amount + rest
      else rest
  }

  /** The reservation counts each debit whose day is in the window once and no other. */
  lemma {:induction false} PendingSplits(debits: seq<AutoDebit>, more: seq<AutoDebit>, today: int,
                                        statementDay: Option<int>, daysInMonth: int)
    ensures PendingInCycle(debits + more, today, statementDay, daysInMonth)
         == PendingInCycle(debits, today, statementDay, daysInMonth)
          + PendingInCycle(more, today, statementDay, daysInMonth)
  {
    if |debits| > 0 {
      assert (debits + more)[1..] == debits[1..] + more;
      PendingSplits(debits[1..], more, today, statementDay, daysInMonth);
    } else {
      assert debits + more == more;
    }
  }

  /** With non-negative debit amounts the reservation lies between zero and
      the total of all debits. */
  lemma {:induction false} PendingBounds(debits: seq<AutoDebit>, today: int, statementDay: Option<int>,
                                        daysInMonth: int)
    requires forall i :: 0 <= i < |debits| ==> debits[i].amount >= 0.0
    ensures 0.0 <= PendingInCycle(debits, today, statementDay, daysInMonth)
    ensures PendingInCycle(debits, today, statementDay, daysInMonth) <= Sum(Amounts(debits))
  {
    if |debits| > 0 {
      PendingBounds(debits[1..], today, statementDay, daysInMonth);
    }
  }

  function Amounts(debits: seq<AutoDebit>): (r: seq<real>)
    ensures |r| == |debits|
    ensures forall i :: 0 <= i < |debits| ==> r[i] == debits[i].amount
  {
    if |debits| == 0 then [] else [debits[0].amount] + Amounts(debits[1..])
  }
}
