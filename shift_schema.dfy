/**
 * The shift validator of the `Employee` schema in data_fetch.py: one day's
 * raw shift value must be a list of two slots, each a list of two values.
 */
module ShiftSchema {
  import opened Wrappers
  import opened PyJson

  const ShiftMessage := "Each day's shift must have exactly 2 time slots (2 lists)."
  const SlotMessage := "Each time slot must contain exactly 2 time values (HH:MM:SS)."

  /** `isinstance(v, list) and len(v) == 2`. */
  predicate IsPair(v: Json) {
    v.JArr? && |v.items| == 2
  }

  /** The loop of lines 25-27 over the slots: the first slot that is not a pair raises. */
  function CheckSlots(slots: seq<Json>): (r: Option<string>)
    ensures r.None? <==> forall i :: 0 <= i < |slots| ==> IsPair(slots[i])
    ensures r.Some? ==> r.value == SlotMessage
  {
    if slots == [] then None
    else if !IsPair(slots[0]) then Some(SlotMessage)
    else CheckSlots(slots[1..])
  }

  /**
   * `Employee.validate_shift` (lines 22-28): the value itself when it has the
   * shape, otherwise the message of the `ValueError` raised first.
   */
  function ValidateShift(shift: Json): (r: Result<Json, string>)
    ensures r.Success? ==> r.value == shift
    ensures !IsPair(shift) ==> r == Failure(ShiftMessage)
    ensures IsPair(shift) ==>
      (r.Success? <==> IsPair(shift.items[0]) && IsPair(shift.items[1]))
    ensures IsPair(shift) && r.Failure? ==> r.error == SlotMessage
  {
    if !IsPair(shift) then Failure(ShiftMessage)
    else match CheckSlots(shift.items)
      case Some(message) => Failure(message)
      case None => Success(shift)
  }

  /** The shape the validator accepts, written out: two slots of two values each. */
  ghost predicate TwoByTwo(shift: Json) {
    exists a, b, c, d :: shift == JArr([JArr([a, b]), JArr([c, d])])
  }

  /** The validator accepts exactly the two-by-two lists, and accepting is the identity. */
  lemma ValidateShiftAcceptsTwoByTwo(shift: Json)
    ensures ValidateShift(shift).Success? <==> TwoByTwo(shift)
    ensures ValidateShift(shift).Success? ==> ValidateShift(ValidateShift(shift).value) == ValidateShift(shift)
  {
    if ValidateShift(shift).Success? {
      var slots := shift.items;
      assert IsPair(slots[0]) && IsPair(slots[1]);
      var first, second := slots[0].items, slots[1].items;
      assert first == [first[0], first[1]] && second == [second[0], second[1]];
      assert slots == [JArr(first), JArr(second)];
      assert shift == JArr([JArr([first[0], first[1]]), JArr([second[0], second[1]])]);
    }
  }
}
