/**
 * The financial-advice chat: a canned reply chosen by the first keyword
 * group the lowercased question contains, and a message list that only
 * grows. The reply arrives from a timer 1.5 seconds after the question;
 * replies to several questions in flight arrive in the order asked.
 */
module Chatbot {
  import opened Options
  import opened JsText

  datatype Topic = Loan | Saving | Scheme | Scam | Balance | Invest | General

  /** The keyword groups, in the order they are tried. */
  const Groups: seq<(Topic, seq<string>)> := [
    (Loan, ["loan"]),
    (Saving, ["save", "saving"]),
    (Scheme, ["scheme", "govt"]),
    (Scam, ["scam", "fraud"]),
    (Balance, ["balance"]),
    (Invest, ["invest"])
  ]

  /** `generateResponse`'s chain of tests on the lowercased query. */
  function Classify(query: string): (r: Topic)
    ensures |query| < 4 ==> r == General
  {
    var q := ToLower(query);
    if Includes(q, "loan") then Loan
    else if Includes(q, "save") || Includes(q, "saving") then Saving
    else if Includes(q, "scheme") || Includes(q, "govt") then Scheme
    else if Includes(q, "scam") || Includes(q, "fraud") then Scam
    else if Includes(q, "balance") then Balance
    else if Includes(q, "invest") then Invest
    else General
  }

  predicate MatchesAny(q: string, words: seq<string>)
  {
    exists w :: w in words && Includes(q, w)
  }

  /** The table-driven reading: the topic of the first group that has a
      word occurring in `q`. */
  function FirstMatch(groups: seq<(Topic, seq<string>)>, q: string): (r: Option<nat>)
    ensures r.Some? ==> r.value < |groups| && MatchesAny(q, groups[r.value].1)
    ensures r.Some? ==> forall j :: 0 <= j < r.value ==> !MatchesAny(q, groups[j].1)
    ensures r.None? ==> forall j :: 0 <= j < |groups| ==> !MatchesAny(q, groups[j].1)
  {
    if groups == [] then None
    else if MatchesAny(q, groups[0].1) then Some(0)
    else
      match FirstMatch(groups[1..], q)
      case None => None
      case Some(k) => Some(k + 1)
  }

  function TopicOf(groups: seq<(Topic, seq<string>)>, q: string): Topic
  {
    match FirstMatch(groups, q)
    case None => General
    case Some(k) => groups[k].0
  }

  lemma MatchesAnyOne(q: string, a: string)
    ensures MatchesAny(q, [a]) <==> Includes(q, a)
  {
    if Includes(q, a) { assert a in [a]; }
  }

  lemma MatchesAnyTwo(q: string, a: string, b: string)
    ensures MatchesAny(q, [a, b]) <==> Includes(q, a) || Includes(q, b)
  {
    if Includes(q, a) { assert a in [a, b]; }
    if Includes(q, b) { assert b in [a, b]; }
  }

  lemma TopicOfCons(g: (Topic, seq<string>), rest: seq<(Topic, seq<string>)>, q: string)
    ensures TopicOf([g] + rest, q) == if MatchesAny(q, g.1) then g.0 else TopicOf(rest, q)
  {
    assert ([g] + rest)[1..] == rest;
  }

  /** The if-chain is the first match over the keyword table, so the
      groups are tried in the order loan, save/saving, scheme/govt,
      scam/fraud, balance, invest. */
  lemma ClassifyIsFirstMatch(query: string)
    ensures Classify(query) == TopicOf(Groups, ToLower(query))
  {
    var q := ToLower(query);
    var g6: seq<(Topic, seq<string>)> := [];
    var g5 := [(Invest, ["invest"])] + g6;
    var g4 := [(Balance, ["balance"])] + g5;
    var g3 := [(Scam, ["scam", "fraud"])] + g4;
    var g2 := [(Scheme, ["scheme", "govt"])] + g3;
    var g1 := [(Saving, ["save", "saving"])] + g2;
    var g0 := [(Loan, ["loan"])] + g1;
    assert Groups == g0;
    MatchesAnyOne(q, "invest");
    TopicOfCons((Invest, ["invest"]), g6, q);
    MatchesAnyOne(q, "balance");
    TopicOfCons((Balance, ["balance"]), g5, q);
    MatchesAnyTwo(q, "scam", "fraud");
    TopicOfCons((Scam, ["scam", "fraud"]), g4, q);
    MatchesAnyTwo(q, "scheme", "govt");
    TopicOfCons((Scheme, ["scheme", "govt"]), g3, q);
    MatchesAnyTwo(q, "save", "saving");
    TopicOfCons((Saving, ["save", "saving"]), g2, q);
    MatchesAnyOne(q, "loan");
    TopicOfCons((Loan, ["loan"]), g1, q);
  }

  function Reply(t: Topic): string
  {
    match t
    case Loan => "For agricultural loans, you can apply for a Kisan Credit Card (KCC) which offers interest rates as low as 4%. Would you like to check your eligibility?"
    case Saving => "To save money on micro-transactions, try using our 'Round-Up' feature. Putting aside just ₹10 daily can grow to ₹3,600 in a year!"
    case Scheme => "Currently, the PM Kisan Samman Nidhi and PM-KUSUM (Solar Pumps) are active. Check the 'Daily Updates' section on your dashboard for details."
    case Scam => "Never share your UPI PIN or OTP with anyone calling you. Bank officials will never ask for these details."
    case Balance => "You can check your balance on the Dashboard by clicking the 'Eye' icon. For security, I cannot read it out here."
    case Invest => "For safe investments with small amounts, consider a Recurring Deposit (RD) starting at just ₹100/month at your local post office."
    case General => "I can help you manage your money better. Try asking about 'Kisan Credit Card', 'Saving Tips', or 'Safe Banking'."
  }

  /** `generateResponse(query)`. */
  function GenerateResponse(query: string): (r: string)
    ensures r == Reply(TopicOf(Groups, ToLower(query)))
  {
    ClassifyIsFirstMatch(query);
    Reply(Classify(query))
  }

  /** Matching ignores letter case. */
  lemma ResponseIgnoresCase(query: string)
    ensures GenerateResponse(ToLower(query)) == GenerateResponse(query)
  {
    ToLowerIdempotent(query);
  }

  datatype Sender = User | Bot

  datatype Message = Message(id: int, text: string, sender: Sender)

  const Greeting := Message(1, "Namaste! I am your Aarambam Financial Advisor. Ask me about loans, savings, or government schemes.", Bot)

  class Chat {
    var messages: seq<Message>
    var inputText: string
    var isTyping: bool
    /** Questions whose reply timer has not fired yet, oldest first. */
    var pending: seq<string>

    constructor ()
      ensures messages == [Greeting] && inputText == [] && !isTyping && pending == []
    {
      messages, inputText, isTyping, pending := [Greeting], [], false, [];
    }

    method EditInput(t: string)
      modifies this`inputText
      ensures inputText == t
    {
      inputText := t;
    }

    /** `handleSend` at time `now`: blank input sends nothing; otherwise
        the question is appended, the box is cleared and a reply is
        scheduled. */
    method HandleSend(now: int)
      modifies this`messages, this`inputText, this`isTyping, this`pending
      ensures IsBlank(old(inputText)) ==>
        messages == old(messages) && inputText == old(inputText) && isTyping == old(isTyping) && pending == old(pending)
      ensures !IsBlank(old(inputText)) ==>
        && messages == old(messages) + [Message(now, old(inputText), User)]
        && inputText == [] && isTyping
        && pending == old(pending) + [old(inputText)]
    {
      TrimEmptyIffBlank(inputText);
      if Trim(inputText) == [] {
        return;
      }
      messages := messages + [Message(now, inputText, User)];
      pending := pending + [inputText];
      inputText := [];
      isTyping := true;
    }

    /** The reply timer at time `now`: the reply to the oldest waiting
        question is appended after everything already shown. */
    method ReplyArrives(now: int)
      requires pending != []
      modifies this`messages, this`isTyping, this`pending
      ensures messages == old(messages) + [Message(now + 1, GenerateResponse(old(pending)[0]), Bot)]
      ensures pending == old(pending)[1..] && !isTyping
    {
      messages := messages + [Message(now + 1, GenerateResponse(pending[0]), Bot)];
      pending := pending[1..];
      isTyping := false;
    }
  }
}
