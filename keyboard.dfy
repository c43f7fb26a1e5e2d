/** The 16-key input state of the interpreter (class `keyboard`). */
module KeyInput {
  import opened Bits

  const KeyCount := 16

  /** Position of the first pressed key, or |keys| when none is pressed:
      the distance `std::find(Keys.begin(), Keys.end(), true)` reports. */
  function FirstPressed(keys: seq<bool>): (d: nat)
    ensures d <= |keys|
    ensures forall j :: 0 <= j < d ==> !keys[j]
    ensures d < |keys| ==> keys[d]
  {
    if keys == [] || keys[0] then 0 else 1 + FirstPressed(keys[1..])
  }

  /** No key flag is set. */
  predicate AllReleased(keys: seq<bool>)
  {
    forall j :: 0 <= j < |keys| ==> !keys[j]
  }

  class Keyboard {
    var keys: array<bool>

    ghost predicate Valid()
      reads this
    {
      keys.Length == KeyCount
    }

    constructor ()
      ensures Valid() && fresh(keys) && AllReleased(keys[..])
    {
      keys := new bool[KeyCount](_ => false);
    }

    /** Point query; the key-press hook it calls first does nothing. */
    method IsKeyVxPressed(num: uint8) returns (pressed: bool)
      requires Valid() && num < KeyCount
      ensures pressed <==> keys[num]
    {
      pressed := keys[num];
    }

    /** Linear scan for the lowest pressed key. The pair's first component
        says whether one was found; the second is its index, or 16. */
    method WhichKeyIndexIfPressed() returns (found: bool, index: uint8)
      requires Valid()
      ensures found <==> exists j :: 0 <= j < KeyCount && keys[j]
      ensures found ==> index < KeyCount && keys[index]
      ensures forall j :: 0 <= j < index && j < KeyCount ==> !keys[j]
      ensures !found ==> index == KeyCount
      ensures index == FirstPressed(keys[..])
    {
      var i := 0;
      while i < KeyCount && !keys[i]
        invariant 0 <= i <= KeyCount
        invariant forall j :: 0 <= j < i ==> !keys[j]
      {
        i := i + 1;
      }
      found, index := i != KeyCount, i;
      FirstPressedUnique(keys[..], i);
    }

    /** Releases every key (for_each over the flags). */
    method ClearKeyInput()
      requires Valid()
      modifies keys
      ensures AllReleased(keys[..])
    {
      for k := 0 to keys.Length
        invariant forall j :: 0 <= j < k ==> !keys[j]
      {
        keys[k] := false;
      }
    }

    /** Sets one flag, as a substituted keyboard or the key transport would;
        the source's own `storeKeyPress` is empty. */
    method Press(k: uint8)
      requires Valid() && k < KeyCount
      modifies keys
      ensures keys[..] == old(keys[..])[k := true]
    {
      keys[k] := true;
    }
  }

  /** The three properties of FirstPressed determine it. */
  lemma FirstPressedUnique(keys: seq<bool>, d: nat)
    requires d <= |keys|
    requires forall j :: 0 <= j < d ==> !keys[j]
    requires d < |keys| ==> keys[d]
    ensures FirstPressed(keys) == d
  {}
}
