/**
 * The offline wallet ledger behind the "Offline Wallet" screen: a balance
 * and a newest-first log of LOAD and PAY entries, changed only by
 * `loadMoney` (refused while offline) and `payOffline` (refused when the
 * balance is short), both of which go through `updateWallet`, which
 * prepends one entry and writes the `{balance, logs}` record to storage.
 *
 * Amounts are natural numbers of minor currency units. Connectivity, the
 * clock and the ISO date string are inputs.
 */
module OfflineLedger {
  import opened Options
  import opened JsText

  /** One log entry. `amount` is what was loaded or paid. */
  datatype Entry =
    | Load(amount: nat, date: string)
    | Pay(amount: nat, receiverId: string, token: string, date: string)

  /** The `{balance, logs}` record: the hook's state and, byte for byte,
      what `updateWallet` stores. */
  datatype Ledger = Ledger(balance: int, logs: seq<Entry>)

  /** The record read when storage holds nothing: `{"balance": 0, "logs": []}`. */
  const EmptyLedger := Ledger(0, [])

  /** Sum of the LOAD amounts in a log. */
  function TotalLoaded(logs: seq<Entry>): nat
  {
    if logs == [] then 0
    else (if logs[0].Load? then logs[0].amount else 0) + TotalLoaded(logs[1..])
  }

  /** Sum of the PAY amounts in a log. */
  function TotalPaid(logs: seq<Entry>): nat
  {
    if logs == [] then 0
    else (if logs[0].Pay? then logs[0].amount else 0) + TotalPaid(logs[1..])
  }

  /** The balance a log accounts for: everything loaded minus everything paid. */
  function Net(logs: seq<Entry>): int
  {
    TotalLoaded(logs) - TotalPaid(logs)
  }

  /** The ledger invariant: the balance is what the log accounts for, and
      it is never negative. */
  predicate Consistent(l: Ledger)
  {
    l.balance == Net(l.logs) && l.balance >= 0
  }

  /** The offline payment token:
      `OFFLINE_TX_<timestamp>_<amount>_TO_<receiverId>`. */
  function Token(now: nat, amount: nat, receiverId: string): (t: string)
    ensures IsPrefix("OFFLINE_TX_", t)
  {
    "OFFLINE_TX_" + (NatToString(now) + ("_" + (NatToString(amount) + ("_TO_" + receiverId))))
  }

  /** In `digits + "_" + rest` the run of leading digits is exactly the
      first part. */
  lemma {:induction false} DigitRunLength(x: string, y: string)
    requires AllDigits(x)
    ensures LeadingDigits(x + ("_" + y)) == |x|
  {
    var s := x + ("_" + y);
    if x != [] {
      assert s[1..] == x[1..] + ("_" + y);
      DigitRunLength(x[1..], y);
    }
  }

  /** A run of digits ends at the first separator, so two texts that read
      `digits + "_" + rest` agree on both parts. */
  lemma SplitAtSeparator(x1: string, y1: string, x2: string, y2: string)
    requires AllDigits(x1) && AllDigits(x2)
    requires x1 + ("_" + y1) == x2 + ("_" + y2)
    ensures x1 == x2 && y1 == y2
  {
    var s := x1 + ("_" + y1);
    DigitRunLength(x1, y1);
    DigitRunLength(x2, y2);
    assert x1 == s[..|x1|] == x2;
    assert y1 == s[|x1| + 1..] == y2;
  }

  /** The token determines the timestamp, the amount and the receiver it
      was minted for. */
  lemma TokenInjective(n1: nat, a1: nat, r1: string, n2: nat, a2: nat, r2: string)
    requires Token(n1, a1, r1) == Token(n2, a2, r2)
    ensures n1 == n2 && a1 == a2 && r1 == r2
  {
    var p := "OFFLINE_TX_";
    var rest1, rest2 := "TO_" + r1, "TO_" + r2;
    assert "_TO_" + r1 == "_" + rest1;
    assert "_TO_" + r2 == "_" + rest2;
    var tail1 := NatToString(a1) + ("_" + rest1);
    var tail2 := NatToString(a2) + ("_" + rest2);
    var body1 := NatToString(n1) + ("_" + tail1);
    var body2 := NatToString(n2) + ("_" + tail2);
    assert body1 == (p + body1)[|p|..];
    assert body2 == (p + body2)[|p|..];
    assert body1 == body2;
    SplitAtSeparator(NatToString(n1), tail1, NatToString(n2), tail2);
    SplitAtSeparator(NatToString(a1), rest1, NatToString(a2), rest2);
    assert r1 == rest1[3..];
    assert r2 == rest2[3..];
    NatToStringInjective(n1, n2);
    NatToStringInjective(a1, a2);
  }

  /** `updateWallet(newBalance, newLog)`: the new log is the entry in
      front of the old one; older entries keep their content and order. */
  function UpdatedLedger(l: Ledger, newBalance: int, entry: Entry): (r: Ledger)
    ensures r.balance == newBalance
    ensures |r.logs| == |l.logs| + 1 && r.logs[0] == entry && r.logs[1..] == l.logs
  {
    Ledger(newBalance, [entry] + l.logs)
  }

  /** `loadMoney(amount)`: refused while offline; otherwise the balance
      grows by `amount` and one LOAD entry is prepended. */
  function LoadStep(l: Ledger, isOnline: bool, amount: nat, date: string): (r: (bool, Ledger))
    ensures r.0 <==> isOnline
    ensures !r.0 ==> r.1 == l
    ensures r.0 ==> && r.1.balance == l.balance + amount
                    && r.1.logs == [Load(amount, date)] + l.logs
    ensures r.1.balance - l.balance == Net(r.1.logs) - Net(l.logs)
    ensures Consistent(l) ==> Consistent(r.1)
  {
    if !isOnline then (false, l)
    else (true, UpdatedLedger(l, l.balance + amount, Load(amount, date)))
  }

  /** `payOffline(amount, receiverId)`: refused when the balance is below
      `amount`; otherwise the balance drops by `amount`, one PAY entry
      carrying the minted token is prepended and the token is returned.
      Connectivity is not an input: the outcome is the same online or
      offline. */
  function PayStep(l: Ledger, amount: nat, receiverId: string, now: nat, date: string)
    : (r: (Option<string>, Ledger))
    ensures r.0.None? <==> l.balance < amount
    ensures r.0.None? ==> r.1 == l
    ensures r.0.Some? ==>
      && r.0.value == Token(now, amount, receiverId)
      && r.1.balance == l.balance - amount >= 0
      && r.1.logs == [Pay(amount, receiverId, r.0.value, date)] + l.logs
    ensures r.1.balance - l.balance == Net(r.1.logs) - Net(l.logs)
    ensures Consistent(l) ==> Consistent(r.1)
  {
    if l.balance < amount then (None, l)
    else
      var token := Token(now, amount, receiverId);
      (Some(token), UpdatedLedger(l, l.balance - amount, Pay(amount, receiverId, token, date)))
  }

  /** A user action on the wallet, with the inputs the code reads from the
      environment at that moment. */
  datatype Action =
    | LoadMoney(isOnline: bool, amount: nat, date: string)
    | PayOffline(amount: nat, receiverId: string, now: nat, date: string)

  function Apply(l: Ledger, a: Action): Ledger
  {
    match a
    case LoadMoney(online, amount, date) => LoadStep(l, online, amount, date).1
    case PayOffline(amount, receiver, now, date) => PayStep(l, amount, receiver, now, date).1
  }

  /** The ledger after a sequence of actions on a fresh wallet. */
  function Replay(actions: seq<Action>): Ledger
  {
    if actions == [] then EmptyLedger
    else Apply(Replay(actions[..|actions| - 1]), actions[|actions| - 1])
  }

  /** Starting from the empty record, after any sequence of loads and
      payments the balance equals the LOAD total minus the PAY total of the
      log, and is never negative. */
  lemma {:induction false} ReplayConsistent(actions: seq<Action>)
    ensures Consistent(Replay(actions))
  {
    if actions != [] {
      ReplayConsistent(actions[..|actions| - 1]);
    }
  }

  /** Every action adds at most one entry, and one exactly when it changed
      the balance: no balance change without a log entry and vice versa. */
  lemma {:induction false} ReplayOneEntryPerChange(actions: seq<Action>)
    requires actions != []
    ensures var before, after := Replay(actions[..|actions| - 1]), Replay(actions);
      && (|after.logs| == |before.logs| || |after.logs| == |before.logs| + 1)
      && (|after.logs| == |before.logs| ==> after == before)
      && after.logs[|after.logs| - |before.logs|..] == before.logs
  {
  }

  /** The wallet hook: its state (`balance`, `logs`, `isOnline`) and the
      record last written to storage. */
  class OfflineWallet {
    var balance: int
    var logs: seq<Entry>
    var isOnline: bool
    /** What storage holds under the wallet key; `None` until the first write. */
    var stored: Option<Ledger>

    function Current(): Ledger
      reads this
    {
      Ledger(balance, logs)
    }

    /** Storage holds the current state (or, before the first write,
        nothing, and the state is the empty record read in its place). */
    ghost predicate Persisted()
      reads this
    {
      stored == Some(Current()) || (stored == None && Current() == EmptyLedger)
    }

    /** The ledger invariant holds and the state is persisted. */
    ghost predicate Valid()
      reads this
    {
      Consistent(Current()) && Persisted()
    }

    /** Mount with nothing in storage: the state is `{balance: 0, logs: []}`. */
    constructor (online: bool)
      ensures Valid()
      ensures balance == 0 && logs == [] && isOnline == online && stored == None
    {
      balance, logs, isOnline, stored := 0, [], online, None;
    }

    /** Mount with a record already in storage: its balance and logs are
        taken as they are, with no check. */
    constructor Restore(saved: Ledger, online: bool)
      ensures Current() == saved && isOnline == online && stored == Some(saved)
      ensures Persisted()
      ensures Consistent(saved) ==> Valid()
    {
      balance, logs, isOnline, stored := saved.balance, saved.logs, online, Some(saved);
    }

    /** The browser's `online` / `offline` event. */
    method SetOnline(online: bool)
      modifies this`isOnline
      ensures isOnline == online
    {
      isOnline := online;
    }

    /** `updateWallet`: prepend one entry, set the balance, write the record. */
    method UpdateWallet(newBalance: int, entry: Entry)
      modifies this`balance, this`logs, this`stored
      ensures Current() == UpdatedLedger(old(Current()), newBalance, entry)
      ensures stored == Some(Current())
    {
      balance := newBalance;
      logs := [entry] + logs;
      stored := Some(Ledger(balance, logs));
    }

    /** `loadMoney`; it runs on whatever record was restored, and keeps
        the ledger invariant when it held before. */
    method LoadMoney(amount: nat, date: string) returns (ok: bool)
      requires Persisted()
      modifies this`balance, this`logs, this`stored
      ensures Persisted()
      ensures Consistent(old(Current())) ==> Consistent(Current())
      ensures (ok, Current()) == LoadStep(old(Current()), isOnline, amount, date)
      ensures ok ==> stored == Some(Current())
      ensures !ok ==> unchanged(this)
    {
      if !isOnline {
        return false;
      }
      UpdateWallet(balance + amount, Load(amount, date));
      return true;
    }

    /** `payOffline`; like `loadMoney` it runs on any restored record. */
    method PayOffline(amount: nat, receiverId: string, now: nat, date: string)
      returns (token: Option<string>)
      requires Persisted()
      modifies this`balance, this`logs, this`stored
      ensures Persisted()
      ensures Consistent(old(Current())) ==> Consistent(Current())
      ensures (token, Current()) == PayStep(old(Current()), amount, receiverId, now, date)
      ensures token.Some? ==> stored == Some(Current())
      ensures token.None? ==> unchanged(this)
      ensures isOnline == old(isOnline)
    {
      if balance < amount {
        return None;
      }
      var t := Token(now, amount, receiverId);
      UpdateWallet(balance - amount, Pay(amount, receiverId, t, date));
      return Some(t);
    }
  }
}
