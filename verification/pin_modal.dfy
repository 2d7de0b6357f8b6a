/**
 * The UPI PIN modal: four one-character slots checked against the fixed
 * PIN "1234" when the last slot is filled, plus a voice path that strips
 * white space from the transcript and fills the four slots at once.
 * A verdict of `Accepted` stands for the modal calling its `onSuccess`
 * (after a 300 ms delay); a wrong typed PIN raises the error flag, and the
 * reset one second later is the separate step `ResetAfterWrongPin`.
 */
module PinModal {
  import opened JsText
  import opened Sequences

  const CorrectPin := "1234"
  const EmptySlots: seq<string> := ["", "", "", ""]

  datatype Verdict = Pending | Accepted | Rejected

  /** `pin.join('')`; `JoinFour` spells it out for the four slots. */
  function Join(slots: seq<string>): string
  {
    if slots == [] then [] else slots[0] + Join(slots[1..])
  }

  /** Four slots, each holding at most one character (the inputs have
      `maxLength="1"`). */
  predicate WellFormedSlots(slots: seq<string>)
  {
    |slots| == 4 && forall i :: 0 <= i < 4 ==> |slots[i]| <= 1
  }

  /** Four slots joined are the four texts one after the other. */
  lemma JoinFour(slots: seq<string>)
    requires |slots| == 4
    ensures Join(slots) == slots[0] + slots[1] + slots[2] + slots[3]
  {
    assert Join(slots[3..]) == slots[3] by { assert slots[3..][1..] == []; }
    assert Join(slots[2..]) == slots[2] + Join(slots[3..]) by { assert slots[2..][1..] == slots[3..]; }
    assert Join(slots[1..]) == slots[1] + Join(slots[2..]) by { assert slots[1..][1..] == slots[2..]; }
  }

  /** With one character per slot at most, the joined slots read "1234"
      exactly when the slots are "1", "2", "3", "4". */
  lemma JoinIsCorrectPinIff(slots: seq<string>)
    requires WellFormedSlots(slots)
    ensures Join(slots) == CorrectPin <==> slots == ["1", "2", "3", "4"]
  {
    var j := Join(slots);
    JoinFour(slots);
    if j == CorrectPin {
      assert |slots[0]| == 1 && |slots[1]| == 1 && |slots[2]| == 1 && |slots[3]| == 1;
      assert slots[0] == j[0..1] == "1";
      assert slots[1] == j[1..2] == "2";
      assert slots[2] == j[2..3] == "3";
      assert slots[3] == j[3..4] == "4";
    }
  }

  /** `text.replace(/\s/g, '')`. */
  function RemoveSpaces(text: string): (r: string)
    ensures |r| <= |text|
    ensures forall i :: 0 <= i < |r| ==> !IsJsSpace(r[i])
    ensures (forall i :: 0 <= i < |text| ==> !IsJsSpace(text[i])) ==> r == text
  {
    if text == [] then []
    else if IsJsSpace(text[0]) then RemoveSpaces(text[1..])
    else [text[0]] + RemoveSpaces(text[1..])
  }

  /** Only white space is dropped: every other character is kept, as
      often as it occurs and in its order. */
  lemma {:induction false} RemoveSpacesKeepsOthers(text: string)
    ensures IsSubsequence(RemoveSpaces(text), text)
    ensures forall c :: multiset(RemoveSpaces(text))[c] == if IsJsSpace(c) then 0 else multiset(text)[c]
  {
    if text != [] {
      RemoveSpacesKeepsOthers(text[1..]);
      assert text == [text[0]] + text[1..];
      if !IsJsSpace(text[0]) {
        assert ([text[0]] + RemoveSpaces(text[1..]))[1..] == RemoveSpaces(text[1..]);
      }
    }
  }

  /** `text.replace(/\s/g, '').slice(0, 4)`. */
  function CleanVoicePin(text: string): (r: string)
    ensures |r| <= 4 && forall i :: 0 <= i < |r| ==> !IsJsSpace(r[i])
    ensures IsPrefix(r, RemoveSpaces(text))
    ensures |r| == 4 || r == RemoveSpaces(text)
  {
    var s := RemoveSpaces(text);
    if |s| <= 4 then s else s[..4]
  }

  /** The voice PIN is taken when four characters remain and JavaScript's
      `isNaN` is false for them. */
  predicate VoicePinTaken(clean: string)
  {
    |clean| == 4 && !IsNaNText(clean)
  }

  /** Spoken digits are taken, with or without spaces between them. */
  lemma SpokenDigitsTaken(text: string)
    requires AllDigits(CleanVoicePin(text)) && |CleanVoicePin(text)| == 4
    ensures VoicePinTaken(CleanVoicePin(text))
  {
    DigitsAreNumber(CleanVoicePin(text));
  }

  lemma SpacedPinIsCorrect()
    ensures CleanVoicePin("1 2 3 4") == CorrectPin
  {
    assert "1 2 3 4"[1..] == " 2 3 4" && " 2 3 4"[1..] == "2 3 4";
    assert "2 3 4"[1..] == " 3 4" && " 3 4"[1..] == "3 4";
    assert "3 4"[1..] == " 4" && " 4"[1..] == "4" && "4"[1..] == [];
    calc {
      RemoveSpaces("1 2 3 4");
      ['1'] + RemoveSpaces("2 3 4");
      ['1'] + (['2'] + RemoveSpaces("3 4"));
      ['1'] + (['2'] + (['3'] + RemoveSpaces("4")));
      ['1'] + (['2'] + (['3'] + ['4']));
      "1234";
    }
  }

  /** `isNaN` accepts more than digits: "12.5" passes the voice check and
      fills the slots with "1", "2", ".", "5" (a wrong PIN, so no success). */
  lemma DecimalTextTaken()
    ensures VoicePinTaken("12.5") && "12.5" != CorrectPin
  {
    var t := "12.5";
    assert !IsJsSpace(t[0]) && !IsJsSpace(t[3]);
    assert TrimStart(t) == t;
    assert Trim(t) == t;
    assert LeadingDigits(t) == 2;
    assert t[2..][1..] == "5";
    assert LeadingDigits("5") == 1;
    assert IsUnsignedDecimal(t);
  }

  class PinPad {
    var pin: seq<string>
    var error: bool

    ghost predicate Valid()
      reads this
    {
      WellFormedSlots(pin)
    }

    constructor ()
      ensures Valid() && pin == EmptySlots && !error
    {
      pin, error := EmptySlots, false;
    }

    /** `handleChange(index, value)` for the slot input `index`. */
    method HandleChange(index: nat, value: string) returns (v: Verdict)
      requires Valid()
      requires index < 4 && |value| <= 1
      modifies this
      ensures Valid()
      // A value `isNaN` rejects is ignored.
      ensures IsNaNText(value) ==> unchanged(this) && v == Pending
      // Otherwise only slot `index` changes.
      ensures !IsNaNText(value) ==> pin == old(pin)[index := value]
      // A verdict is reached only when the last slot receives a value.
      ensures v != Pending <==> !IsNaNText(value) && index == 3 && value != []
      ensures v == Accepted <==> v != Pending && Join(pin) == CorrectPin
      ensures v == Accepted ==> pin == ["1", "2", "3", "4"]
      // Only a wrong PIN raises the error flag.
      ensures error == (old(error) || v == Rejected)
    {
      if IsNaNText(value) {
        return Pending;
      }
      pin := pin[index := value];
      v := Pending;
      if index == 3 && value != [] {
        if Join(pin) == CorrectPin {
          JoinIsCorrectPinIff(pin);
          v := Accepted;
        } else {
          error := true;
          v := Rejected;
        }
      }
    }

    /** The timer one second after a wrong PIN: clear the slots and the error. */
    method ResetAfterWrongPin()
      modifies this
      ensures Valid() && pin == EmptySlots && !error
    {
      pin, error := EmptySlots, false;
    }

    /** `handleVoicePin` with the recognised `text`. A taken PIN fills the
        slots; a wrong one sets no error and starts no reset. */
    method HandleVoicePin(text: string) returns (v: Verdict)
      requires Valid()
      modifies this
      ensures Valid()
      ensures error == old(error) && v != Rejected
      ensures var clean := CleanVoicePin(text);
        && (!VoicePinTaken(clean) ==> unchanged(this) && v == Pending)
        && (VoicePinTaken(clean) ==>
              && pin == [[clean[0]], [clean[1]], [clean[2]], [clean[3]]]
              && (v == Accepted <==> clean == CorrectPin))
    {
      var clean := CleanVoicePin(text);
      v := Pending;
      if |clean| == 4 && !IsNaNText(clean) {
        pin := [[clean[0]], [clean[1]], [clean[2]], [clean[3]]];
        if clean == CorrectPin {
          v := Accepted;
        }
      }
    }
  }
}
