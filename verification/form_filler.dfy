/**
 * The AI form filler: a photo of a payment slip is sent for extraction;
 * on a 'success' response the four extracted fields fill the form, and
 * the voice prompt names the first field that could not be read. The
 * user can then correct each field by hand.
 */
module FormFiller {
  import opened Options
  import opened Sequences

  /** The extracted record; the empty string stands for a missing (falsy)
      field. */
  datatype Extracted = Extracted(accountName: string, accountNumber: string, ifsc: string, amount: string)

  /** A record with nothing in it: `{...null}`. */
  const NoFields := Extracted("", "", "", "")

  datatype Field = AccountName | AccountNumber | Ifsc | Amount

  /** The fields in the order they are checked, with their spoken labels. */
  const Order: seq<Field> := [AccountName, AccountNumber, Ifsc, Amount]

  function Label(f: Field): string
  {
    match f
    case AccountName => "Name"
    case AccountNumber => "Account Number"
    case Ifsc => "IFSC Code"
    case Amount => "Amount"
  }

  const Labels: seq<string> := ["Name", "Account Number", "IFSC Code", "Amount"]

  function Get(d: Extracted, f: Field): string
  {
    match f
    case AccountName => d.accountName
    case AccountNumber => d.accountNumber
    case Ifsc => d.ifsc
    case Amount => d.amount
  }

  /** `{...extractedData, [field]: value}`. */
  function With(d: Extracted, f: Field, value: string): (r: Extracted)
    ensures Get(r, f) == value
    ensures forall g :: g != f ==> Get(r, g) == Get(d, g)
  {
    match f
    case AccountName => d.(accountName := value)
    case AccountNumber => d.(accountNumber := value)
    case Ifsc => d.(ifsc := value)
    case Amount => d.(amount := value)
  }

  function IfEmpty(d: Extracted, f: Field): seq<string>
  {
    if Get(d, f) == [] then [Label(f)] else []
  }

  /** The labels of the empty fields among `fields`, in order; what it
      lists is stated by `EmptyLabelsNamesEmpty` and `SubsequenceOfLabels`. */
  function EmptyLabels(d: Extracted, fields: seq<Field>): seq<string>
  {
    if fields == [] then [] else IfEmpty(d, fields[0]) + EmptyLabels(d, fields[1..])
  }

  /** `EmptyLabels` over the four fields, spelled out. */
  lemma EmptyLabelsOfOrder(d: Extracted)
    ensures EmptyLabels(d, Order) ==
      IfEmpty(d, AccountName) + IfEmpty(d, AccountNumber) + IfEmpty(d, Ifsc) + IfEmpty(d, Amount)
  {
    var o1, o2, o3 := [AccountNumber, Ifsc, Amount], [Ifsc, Amount], [Amount];
    assert Order[1..] == o1 && o1[1..] == o2 && o2[1..] == o3 && o3[1..] == [];
    assert EmptyLabels(d, o3) == IfEmpty(d, Amount);
    assert EmptyLabels(d, o2) == IfEmpty(d, Ifsc) + IfEmpty(d, Amount);
    assert EmptyLabels(d, o1) == IfEmpty(d, AccountNumber) + (IfEmpty(d, Ifsc) + IfEmpty(d, Amount));
  }

  /** The list `missingFields` names exactly the empty fields, in the
      order Name, Account Number, IFSC Code, Amount. */
  method MissingFields(d: Extracted) returns (missing: seq<string>)
    ensures missing == EmptyLabels(d, Order)
    ensures IsSubsequence(missing, Labels)
    ensures forall f :: Label(f) in missing <==> Get(d, f) == []
  {
    missing := [];
    if d.accountName == [] {
      missing := missing + ["Name"];
    }
    assert missing == IfEmpty(d, AccountName);
    if d.accountNumber == [] {
      missing := missing + ["Account Number"];
    }
    assert missing == IfEmpty(d, AccountName) + IfEmpty(d, AccountNumber);
    if d.ifsc == [] {
      missing := missing + ["IFSC Code"];
    }
    assert missing == IfEmpty(d, AccountName) + IfEmpty(d, AccountNumber) + IfEmpty(d, Ifsc);
    if d.amount == [] {
      missing := missing + ["Amount"];
    }
    EmptyLabelsOfOrder(d);
    SubsequenceOfLabels(d);
    EmptyLabelsNamesEmpty(d);
  }

  /** A label is listed exactly when its field is empty. */
  lemma EmptyLabelsNamesEmpty(d: Extracted)
    ensures forall f :: Label(f) in EmptyLabels(d, Order) <==> Get(d, f) == []
  {
    EmptyLabelsOfOrder(d);
    forall f
      ensures Label(f) in EmptyLabels(d, Order) <==> Get(d, f) == []
    {
      forall g | g != f
        ensures Label(f) !in IfEmpty(d, g)
      {
        assert Label(f) != Label(g);
      }
    }
  }

  lemma SubsequenceOfLabels(d: Extracted)
    ensures IsSubsequence(EmptyLabels(d, Order), Labels)
  {
    EmptyLabelsOfOrder(d);
    forall f | true
      ensures IsSubsequence(IfEmpty(d, f), [Label(f)])
    {
      SubsequenceRefl([Label(f)]);
    }
    var n, a, i, m := IfEmpty(d, AccountName), IfEmpty(d, AccountNumber), IfEmpty(d, Ifsc), IfEmpty(d, Amount);
    SubsequenceConcat(n, ["Name"], a, ["Account Number"]);
    SubsequenceConcat(n + a, ["Name", "Account Number"], i, ["IFSC Code"]);
    SubsequenceConcat(n + a + i, ["Name", "Account Number", "IFSC Code"], m, ["Amount"]);
    assert ["Name"] + ["Account Number"] == ["Name", "Account Number"];
    assert ["Name", "Account Number"] + ["IFSC Code"] == ["Name", "Account Number", "IFSC Code"];
    assert ["Name", "Account Number", "IFSC Code"] + ["Amount"] == Labels;
  }

  /** What is spoken after a successful extraction. */
  datatype Prompt = AllFilled | AskFor(name: string)

  function PromptFor(missing: seq<string>): (p: Prompt)
    ensures missing == [] <==> p == AllFilled
    ensures missing != [] ==> p == AskFor(missing[0])
  {
    if missing == [] then AllFilled else AskFor(missing[0])
  }

  /** The prompt names the earliest empty field: every field before it in
      the order was read. */
  lemma {:induction false} PromptNamesFirstEmpty(d: Extracted, k: nat)
    requires k < |Order| && PromptFor(EmptyLabels(d, Order)) == AskFor(Label(Order[k]))
    ensures Get(d, Order[k]) == []
    ensures forall j :: 0 <= j < k ==> Get(d, Order[j]) != []
  {
    assert Order[0] == AccountName && Order[1] == AccountNumber && Order[2] == Ifsc && Order[3] == Amount;
    EmptyLabelsOfOrder(d);
    var n, a, i := IfEmpty(d, AccountName), IfEmpty(d, AccountNumber), IfEmpty(d, Ifsc);
    var first := EmptyLabels(d, Order)[0];
    if n != [] {
      assert first == "Name";
    } else if a != [] {
      assert first == "Account Number";
    } else if i != [] {
      assert first == "IFSC Code";
    } else {
      assert first == "Amount";
    }
  }

  /** The server's reply; `None` stands for a failed request. */
  datatype Response = Response(status: string, data: Extracted)

  class Filler {
    var file: Option<string>
    var previewUrl: Option<string>
    var extracted: Option<Extracted>

    constructor ()
      ensures file == None && previewUrl == None && extracted == None
    {
      file, previewUrl, extracted := None, None, None;
    }

    /** `processImage` after the request settles: the form is cleared,
        and filled with the extracted data only on a 'success' status, in
        which case the prompt for it is returned. */
    method ProcessImage(response: Option<Response>) returns (prompt: Option<Prompt>)
      modifies this`extracted
      ensures response.Some? && response.value.status == "success" ==>
        && extracted == Some(response.value.data)
        && prompt == Some(PromptFor(EmptyLabels(response.value.data, Order)))
      ensures !(response.Some? && response.value.status == "success") ==>
        extracted == None && prompt == None
    {
      extracted := None;
      prompt := None;
      if response.Some? && response.value.status == "success" {
        var data := response.value.data;
        extracted := Some(data);
        var missing := MissingFields(data);
        prompt := Some(PromptFor(missing));
      }
    }

    /** `onDrop`: with a dropped file, remember it and its preview and
        process it; with none, nothing happens. */
    method OnDrop(dropped: Option<string>, url: string, response: Option<Response>) returns (prompt: Option<Prompt>)
      modifies this`file, this`previewUrl, this`extracted
      ensures dropped.None? ==> prompt == None && unchanged(this)
      ensures dropped.Some? ==> file == dropped && previewUrl == Some(url)
      ensures dropped.Some? && response.Some? && response.value.status == "success" ==>
        && extracted == Some(response.value.data)
        && prompt == Some(PromptFor(EmptyLabels(response.value.data, Order)))
      ensures dropped.Some? && !(response.Some? && response.value.status == "success") ==>
        extracted == None && prompt == None
    {
      if dropped.None? {
        return None;
      }
      file := dropped;
      previewUrl := Some(url);
      prompt := ProcessImage(response);
    }

    /** A field's change handler: only that field changes; editing before
        any extraction creates a record holding just that field. */
    method EditField(f: Field, value: string)
      modifies this`extracted
      ensures extracted.Some?
      ensures Get(extracted.value, f) == value
      ensures forall g :: g != f ==>
        Get(extracted.value, g) == (if old(extracted).Some? then Get(old(extracted).value, g) else [])
    {
      var base := if extracted.Some? then extracted.value else NoFields;
      extracted := Some(With(base, f, value));
    }

    /** `resetForm`. */
    method ResetForm()
      modifies this`file, this`previewUrl, this`extracted
      ensures file == None && previewUrl == None && extracted == None
    {
      file, previewUrl, extracted := None, None, None;
    }
  }
}
