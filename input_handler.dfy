/**
 * The keyboard/touch state machine of src/game/InputHandler.ts: a set of held
 * keys and an optional touch origin. Listener registration is left to the
 * host; each handler is a method receiving the key or the coordinates.
 */
module InputHandling {
  import opened Wrappers
  import opened GameTypes

  /** The keys `handleKeyDown` accepts, lower-cased. */
  const RecognisedKeys: set<string> :=
    {"arrowup", "arrowdown", "arrowleft", "arrowright", "w", "a", "s", "d"}

  const ArrowKeys: set<string> := {"arrowup", "arrowdown", "arrowleft", "arrowright"}

  /** `String.prototype.toLowerCase` on ASCII letters; other characters are kept. */
  function ToLower(s: string): (r: string)
    ensures |r| == |s|
    ensures forall i :: 0 <= i < |s| ==> ('A' <= s[i] <= 'Z' ==> r[i] as int == s[i] as int + 32)
    ensures forall i :: 0 <= i < |s| ==> (!('A' <= s[i] <= 'Z') ==> r[i] == s[i])
  {
    seq(|s|, i requires 0 <= i < |s| =>
      if 'A' <= s[i] <= 'Z' then (s[i] as int + 32) as char else s[i])
  }

  /** The keys after `handleKeyDown(key)`. */
  function KeyDownKeys(keys: set<string>, key: string): set<string>
  {
    var k := ToLower(key);
    if k in RecognisedKeys then keys + {k} else keys
  }

  /** The keys after `handleKeyUp(key)`. */
  function KeyUpKeys(keys: set<string>, key: string): set<string>
  {
    keys - {ToLower(key)}
  }

  /** A touch coordinate JavaScript treats as false: `null` or 0. */
  predicate Falsy(c: Option<real>)
  {
    c.None? || c.value == 0.0
  }

  /** The direction a touch offset of more than 10 pixels along one axis adds. */
  function Swipe(delta: real, positive: string, negative: string): (r: set<string>)
    ensures r == {} <==> -10.0 <= delta <= 10.0
    ensures r != {} ==> r == (if delta > 0.0 then {positive} else {negative})
  {
    if (if delta < 0.0 then -delta else delta) > 10.0 then
      (if delta > 0.0 then {positive} else {negative})
    else {}
  }

  /** The keys after a touch move by `dx, dy` from the origin. */
  function TouchMoveKeys(keys: set<string>, dx: real, dy: real): set<string>
  {
    (keys - ArrowKeys) + Swipe(dx, "arrowright", "arrowleft") + Swipe(dy, "arrowdown", "arrowup")
  }

  /** `getInput()` as a function of the held keys. */
  function InputOf(keys: set<string>): Input
  {
    Input(
      "arrowup" in keys || "w" in keys,
      "arrowdown" in keys || "s" in keys,
      "arrowleft" in keys || "a" in keys,
      "arrowright" in keys || "d" in keys)
  }

  class InputHandler {
    var keys: set<string>
    var touchStartX: Option<real>
    var touchStartY: Option<real>

    /** Only recognised keys are ever held. */
    predicate Valid()
      reads this
    {
      keys <= RecognisedKeys
    }

    constructor ()
      ensures Valid()
      ensures keys == {} && touchStartX == None && touchStartY == None
    {
      keys := {};
      touchStartX := None;
      touchStartY := None;
    }

    method HandleKeyDown(key: string)
      requires Valid()
      modifies this
      ensures Valid()
      ensures keys == KeyDownKeys(old(keys), key)
      ensures touchStartX == old(touchStartX) && touchStartY == old(touchStartY)
    {
      var k := ToLower(key);
      if k in RecognisedKeys {
        keys := keys + {k};
      }
    }

    method HandleKeyUp(key: string)
      requires Valid()
      modifies this
      ensures Valid()
      ensures keys == KeyUpKeys(old(keys), key)
      ensures touchStartX == old(touchStartX) && touchStartY == old(touchStartY)
    {
      var k := ToLower(key);
      keys := keys - {k};
    }

    method HandleTouchStart(clientX: real, clientY: real)
      requires Valid()
      modifies this
      ensures Valid()
      ensures touchStartX == Some(clientX) && touchStartY == Some(clientY)
      ensures keys == old(keys)
    {
      touchStartX := Some(clientX);
      touchStartY := Some(clientY);
    }

    method HandleTouchMove(clientX: real, clientY: real)
      requires Valid()
      modifies this
      ensures Valid()
      ensures Falsy(old(touchStartX)) || Falsy(old(touchStartY)) ==> keys == old(keys)
      ensures !Falsy(old(touchStartX)) && !Falsy(old(touchStartY)) ==>
        keys == TouchMoveKeys(old(keys), clientX - old(touchStartX).value, clientY - old(touchStartY).value)
      ensures touchStartX == old(touchStartX) && touchStartY == old(touchStartY)
    {
      if Falsy(touchStartX) || Falsy(touchStartY) {
        return;
      }
      var deltaX := clientX - touchStartX.value;
      var deltaY := clientY - touchStartY.value;
      keys := keys - {"arrowleft"};
      keys := keys - {"arrowright"};
      keys := keys - {"arrowup"};
      keys := keys - {"arrowdown"};
      if (if deltaX < 0.0 then -deltaX else deltaX) > 10.0 {
        if deltaX > 0.0 {
          keys := keys + {"arrowright"};
        } else {
          keys := keys + {"arrowleft"};
        }
      }
      if (if deltaY < 0.0 then -deltaY else deltaY) > 10.0 {
        if deltaY > 0.0 {
          keys := keys + {"arrowdown"};
        } else {
          keys := keys + {"arrowup"};
        }
      }
    }

    method HandleTouchEnd()
      requires Valid()
      modifies this
      ensures Valid()
      ensures keys == {} && touchStartX == None && touchStartY == None
    {
      touchStartX := None;
      touchStartY := None;
      keys := {};
    }

    /** `getInput()`. */
    function GetInput(): Input
      reads this
    {
      InputOf(keys)
    }
  }

  /**
   * A key press adds the lower-cased key exactly when it is recognised, and
   * nothing else; keys outside the list leave the set unchanged.
   */
  lemma KeyDownAddsRecognised(keys: set<string>, key: string)
    ensures KeyDownKeys(keys, key) - keys <= {ToLower(key)}
    ensures ToLower(key) in KeyDownKeys(keys, key) <==> ToLower(key) in RecognisedKeys || ToLower(key) in keys
    ensures keys <= KeyDownKeys(keys, key)
    ensures keys <= RecognisedKeys ==> KeyDownKeys(keys, key) <= RecognisedKeys
  {
  }

  /** Upper-case letters count as their lower-case forms: `W` holds `w`. */
  lemma KeyDownLowerCases()
    ensures KeyDownKeys({}, "W") == {"w"}
    ensures KeyDownKeys({}, "ArrowUp") == {"arrowup"}
    ensures KeyDownKeys({}, "Enter") == {}
  {
    assert ToLower("W") == "w";
    assert ToLower("ArrowUp") == "arrowup";
    var e := ToLower("Enter");
    assert e == "enter";
  }

  /** A key release removes the lower-cased key and nothing else. */
  lemma KeyUpRemovesOnly(keys: set<string>, key: string)
    ensures ToLower(key) !in KeyUpKeys(keys, key)
    ensures forall k :: k in keys && k != ToLower(key) ==> k in KeyUpKeys(keys, key)
    ensures KeyUpKeys(keys, key) <= keys
  {
  }

  /** Releasing a key that was not held before its press restores the old set. */
  lemma KeyUpUndoesKeyDown(keys: set<string>, key: string)
    requires ToLower(key) !in keys
    ensures KeyUpKeys(KeyDownKeys(keys, key), key) == keys
  {
  }

  /**
   * A touch move keeps `w/a/s/d` as they were, never holds both horizontal
   * arrows or both vertical arrows, and holds an arrow exactly when the
   * offset along its axis exceeds 10 in its direction.
   */
  lemma TouchMoveDirections(keys: set<string>, dx: real, dy: real)
    ensures var r := TouchMoveKeys(keys, dx, dy);
      && (forall k :: k !in ArrowKeys ==> (k in r <==> k in keys))
      && !("arrowleft" in r && "arrowright" in r)
      && !("arrowup" in r && "arrowdown" in r)
      && ("arrowright" in r <==> dx > 10.0)
      && ("arrowleft" in r <==> dx < -10.0)
      && ("arrowdown" in r <==> dy > 10.0)
      && ("arrowup" in r <==> dy < -10.0)
  {
  }

  /** Without `a`/`d` held from the keyboard, touch never steers both ways. */
  lemma TouchNeverSteersBothWays(keys: set<string>, dx: real, dy: real)
    requires "a" !in keys && "d" !in keys
    ensures var input := InputOf(TouchMoveKeys(keys, dx, dy));
      !(input.left && input.right)
  {
    TouchMoveDirections(keys, dx, dy);
  }

  /** A touch move keeps the held keys within the recognised ones. */
  lemma TouchMoveKeepsValid(keys: set<string>, dx: real, dy: real)
    requires keys <= RecognisedKeys
    ensures TouchMoveKeys(keys, dx, dy) <= RecognisedKeys
  {
  }

  /** Each direction is on exactly when its arrow or its letter is held. */
  lemma InputDirections(keys: set<string>)
    ensures InputOf(keys).up <==> "arrowup" in keys || "w" in keys
    ensures InputOf(keys).down <==> "arrowdown" in keys || "s" in keys
    ensures InputOf(keys).left <==> "arrowleft" in keys || "a" in keys
    ensures InputOf(keys).right <==> "arrowright" in keys || "d" in keys
    ensures InputOf({}) == Input(false, false, false, false)
  {
  }
}
