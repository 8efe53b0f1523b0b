/**
 * The player: name and class (read from the console in the source, given here as arguments),
 * current and maximum health, resistance, inventory and buffs.
 */
module Players {

  /**
   * Health as `setCurrHealth` stores it: capped at the maximum, then raised to 0. It lies within
   * [0, maxHealth] whenever the maximum is not negative, and equals the requested health when that
   * already lies there; with a negative maximum, only a request above it ends up at most the maximum.
   */
  function Clamp(health: int, maxHealth: int): (r: int)
    ensures r <= maxHealth <==> maxHealth >= 0 || health > maxHealth
    ensures maxHealth >= 0 ==> 0 <= r <= maxHealth
    ensures 0 <= health <= maxHealth ==> r == health
    ensures health > maxHealth ==> r == maxHealth
    ensures health < 0 && health <= maxHealth ==> r == 0
  {
    if health > maxHealth then maxHealth else if health < 0 then 0 else health
  }

  /** The position of the first `x` in `s` (what `std::find` finds), or `|s|` when there is none. */
  function FirstIndex<T(==)>(s: seq<T>, x: T): (i: nat)
    ensures i <= |s|
    ensures i < |s| ==> s[i] == x
    ensures x !in s[..i]
    ensures i == |s| <==> x !in s
  {
    if s == [] then 0 else if s[0] == x then 0 else 1 + FirstIndex(s[1..], x)
  }

  /** `s` without its first `x`, the rest in order; `s` itself when `x` is absent. */
  function RemoveFirst<T(==)>(s: seq<T>, x: T): seq<T>
  {
    var i := FirstIndex(s, x);
    if i == |s| then s else s[..i] + s[i + 1..]
  }

  /**
   * Removing deletes exactly one occurrence when there is one (the multiset loses one `x`) and
   * nothing otherwise; the elements before the first `x` are untouched.
   */
  lemma {:induction false} RemoveFirstCounts<T>(s: seq<T>, x: T)
    ensures x !in s ==> RemoveFirst(s, x) == s
    ensures x in s ==> |RemoveFirst(s, x)| == |s| - 1 && multiset(RemoveFirst(s, x)) == multiset(s) - multiset{x}
    ensures RemoveFirst(s, x)[..FirstIndex(s, x)] == s[..FirstIndex(s, x)]
  {
    var i := FirstIndex(s, x);
    if i < |s| {
      assert s == s[..i] + [s[i]] + s[i + 1..];
      assert multiset(s) == multiset(s[..i]) + multiset{x} + multiset(s[i + 1..]);
    }
  }

  /** Adding an item that was not there and removing it again gives the list back. */
  lemma {:induction false} AddThenRemove<T>(s: seq<T>, x: T)
    requires x !in s
    ensures RemoveFirst(s + [x], x) == s
  {
    var t := s + [x];
    assert x !in t[..|s|] by { assert t[..|s|] == s; }
    assert t[|s|] == x;
    FirstIndexAt(t, x, |s|);
    assert t[..|s|] == s;
  }

  lemma {:induction false} FirstIndexAt<T>(s: seq<T>, x: T, i: nat)
    requires i < |s| && s[i] == x && x !in s[..i]
    ensures FirstIndex(s, x) == i
    decreases i
  {
    if i > 0 {
      assert s[0] != x by { assert s[0] == s[..i][0]; }
      assert s[1..][..i - 1] == s[..i][1..];
      FirstIndexAt(s[1..], x, i - 1);
    }
  }

  /** The element-by-element search `std::find` performs, as a loop. */
  method Find<T(==)>(s: seq<T>, x: T) returns (i: nat)
    ensures i == FirstIndex(s, x)
  {
    i := 0;
    while i < |s| && s[i] != x
      invariant i <= |s| && x !in s[..i]
    {
      assert s[..i + 1] == s[..i] + [s[i]];
      i := i + 1;
    }
    if i < |s| {
      FirstIndexAt(s, x, i);
    }
  }

  class Player {
    var inventory: seq<string>
    var classType: string
    var firstName: string
    var resistance: int
    var maxHealth: int
    var currHealth: int
    var buffs: seq<string>

    /** `Player::Player()`: name and class as entered, full health of 100, nothing carried. */
    constructor(name: string, classTypeEntered: string)
      ensures firstName == name && classType == classTypeEntered
      ensures maxHealth == 100 && currHealth == 100
      ensures inventory == [] && buffs == []
    {
      firstName := name;
      classType := classTypeEntered;
      maxHealth := 100;
      currHealth := 100;
      inventory := [];
      buffs := [];
    }

    /** `addToInventory`: appends the item at the end. */
    method AddToInventory(item: string)
      modifies this`inventory
      ensures inventory == old(inventory) + [item]
    {
      inventory := inventory + [item];
    }

    /** `removeFromInventory`: erases the first occurrence of the item; an absent item changes nothing. */
    method RemoveFromInventory(item: string)
      modifies this`inventory
      ensures inventory == RemoveFirst(old(inventory), item)
    {
      var it := Find(inventory, item);
      if it < |inventory| {
        inventory := inventory[..it] + inventory[it + 1..];
      }
    }

    /** `setMaxHelth`: stores the maximum and lowers the current health to it if it was above. */
    method SetMaxHelth(newMax: int)
      modifies this`maxHealth, this`currHealth
      ensures maxHealth == newMax
      ensures currHealth == if old(currHealth) > newMax then newMax else old(currHealth)
      ensures currHealth <= maxHealth
    {
      maxHealth := newMax;
      if currHealth > maxHealth {
        currHealth := maxHealth;
      }
    }

    /** `setCurrHealth`: stores the health clamped by `Clamp` against the current maximum. */
    method SetCurrHealth(health: int)
      modifies this`currHealth
      ensures currHealth == Clamp(health, maxHealth)
      ensures maxHealth >= 0 ==> 0 <= currHealth <= maxHealth
    {
      if health > maxHealth {
        currHealth := maxHealth;
      } else if health < 0 {
        currHealth := 0;
      } else {
        currHealth := health;
      }
    }

    /** `addBuff`: appends the buff at the end. */
    method AddBuff(buff: string)
      modifies this`buffs
      ensures buffs == old(buffs) + [buff]
    {
      buffs := buffs + [buff];
    }

    /** `removeBuff`: erases the first occurrence of the buff; an absent buff changes nothing. */
    method RemoveBuff(buff: string)
      modifies this`buffs
      ensures buffs == RemoveFirst(old(buffs), buff)
    {
      var it := Find(buffs, buff);
      if it < |buffs| {
        buffs := buffs[..it] + buffs[it + 1..];
      }
    }

    /** `setResistance`: stores the resistance. */
    method SetResistance(r: int)
      modifies this`resistance
      ensures resistance == r
    {
      resistance := r;
    }
  }
}
