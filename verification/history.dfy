/**
 * The transaction history: a fixed list filtered by the selected chip
 * ('All', 'Sent', 'Received'), with a sign and a "Failed" badge per row.
 */
module History {
  import opened Sequences

  datatype Kind = Debit | Credit

  datatype Txn = Txn(id: nat, name: string, date: string, amount: nat, kind: Kind, status: string)

  const Transactions := [
    Txn(1, "Swiggy Instamart", "Today, 10:30 AM", 245, Debit, "Success"),
    Txn(2, "Ramesh Kumar", "Yesterday, 6:00 PM", 8000, Debit, "Success"),
    Txn(3, "Cashback Reward", "Dec 05, 2025", 45, Credit, "Success"),
    Txn(4, "Electricity Bill", "Dec 01, 2025", 1250, Debit, "Failed")
  ]

  /** The entries of kind `k`, in their order. */
  function OfKind(txns: seq<Txn>, k: Kind): (r: seq<Txn>)
    ensures IsSubsequence(r, txns)
    ensures forall i :: 0 <= i < |r| ==> r[i].kind == k
    ensures forall t :: multiset(r)[t] == if t.kind == k then multiset(txns)[t] else 0
  {
    if txns == [] then []
    else
      var rest := OfKind(txns[1..], k);
      assert txns == [txns[0]] + txns[1..];
      if txns[0].kind == k then [txns[0]] + rest else rest
  }

  /** `filteredTxns`: 'All' shows everything, 'Sent' the debits, and any
      other value the credits. */
  function Filtered(filter: string, txns: seq<Txn>): (r: seq<Txn>)
    ensures IsSubsequence(r, txns)
    ensures filter == "All" ==> r == txns
    ensures filter == "Sent" ==> r == OfKind(txns, Debit)
    ensures filter != "All" && filter != "Sent" ==> r == OfKind(txns, Credit)
  {
    SubsequenceRefl(txns);
    if filter == "All" then txns
    else OfKind(txns, if filter == "Sent" then Debit else Credit)
  }

  /** 'Sent' and 'Received' split the list: every entry is in exactly
      one of them. */
  lemma SentAndReceivedPartition(txns: seq<Txn>)
    ensures multiset(Filtered("Sent", txns)) + multiset(Filtered("Received", txns)) == multiset(txns)
  {
    var s, c := Filtered("Sent", txns), Filtered("Received", txns);
    forall t
      ensures (multiset(s) + multiset(c))[t] == multiset(txns)[t]
    {
    }
  }

  /** The sign in front of the amount. */
  function Sign(t: Txn): (c: char)
    ensures c == '+' <==> t.kind == Credit
    ensures c == '-' <==> t.kind == Debit
  {
    match t.kind
    case Credit => assert '+' != '-'; '+'
    case Debit => '-'
  }

  predicate ShowsFailedBadge(t: Txn)
  {
    t.status == "Failed"
  }

  lemma OnlyElectricityFailed()
    ensures forall i :: 0 <= i < |Transactions| ==> (ShowsFailedBadge(Transactions[i]) <==> i == 3)
  {
  }
}
