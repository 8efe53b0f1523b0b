/**
 * Enemies: the `Enemy` record the combat code updates in place, the `EnemySpawner` generators
 * (each a value drawn from a fixed list or range by one `rand()` result, given as an argument),
 * the death test, and the damage rule.
 */
module Enemies {

  /** An enemy; `enemyType` is the source's `type`. */
  class Enemy {
    var name: string
    var health: int
    var attack: int
    var enemyType: string
    var defence: int
    var personality: string

    constructor(name: string, health: int, attack: int, enemyType: string, defence: int, personality: string)
      ensures this.name == name && this.health == health && this.attack == attack
      ensures this.enemyType == enemyType && this.defence == defence && this.personality == personality
    {
      this.name := name;
      this.health := health;
      this.attack := attack;
      this.enemyType := enemyType;
      this.defence := defence;
      this.personality := personality;
    }
  }

  const Names: seq<string> := ["Kaelen", "Liora", "Orin", "Zylara", "KL-98", "RW-07", "Charles", "Jacket", "Raid"]
  const Types: seq<string> := ["Sardaukar", "Fremen", "AI", "Rodians"]
  const Personalities: seq<string> := ["Upstanding", "Martial", "Cunning", "Sadistic", "Cautious"]

  /** `list[rand() % list.size()]`: an entry of the list, and every entry can come out. */
  function Choose(list: seq<string>, rnd: nat): (s: string)
    requires list != []
    ensures s in list
    ensures rnd < |list| ==> s == list[rnd]
  {
    list[rnd % |list|]
  }

  /** No entry of the three lists is empty (checked entry by entry). */
  lemma ListEntriesNonEmpty()
    ensures forall i :: 0 <= i < |Names| ==> Names[i] != []
    ensures forall i :: 0 <= i < |Types| ==> Types[i] != []
    ensures forall i :: 0 <= i < |Personalities| ==> Personalities[i] != []
  {
  }

  /** `generateHealth`: in [50, 100], and every value of it can come out. */
  function GenerateHealth(rnd: nat): (h: int)
    ensures 50 <= h <= 100
    ensures rnd <= 50 ==> h == 50 + rnd
  {
    rnd % 51 + 50
  }

  /** `generateAttack`: in [10, 30], and every value of it can come out. */
  function GenerateAttack(rnd: nat): (a: int)
    ensures 10 <= a <= 30
    ensures rnd <= 20 ==> a == 10 + rnd
  {
    rnd % 21 + 10
  }

  /** `generateDefence`: in [5, 80], and every value of it can come out. */
  function GenerateDefence(rnd: nat): (d: int)
    ensures 5 <= d <= 80
    ensures rnd <= 75 ==> d == 5 + rnd
  {
    rnd % 76 + 5
  }

  /**
   * `spawnEnemy`: a new enemy whose name, health, attack, type, personality and defence come from
   * the generators, drawn in that order: a non-empty name, type and personality from the fixed
   * lists, health in [50, 100], attack in [10, 30], defence in [5, 80].
   */
  method SpawnEnemy(rName: nat, rHealth: nat, rAttack: nat, rType: nat, rPersonality: nat, rDefence: nat) returns (enemy: Enemy)
    ensures fresh(enemy)
    ensures enemy.name == Choose(Names, rName) && enemy.health == GenerateHealth(rHealth)
    ensures enemy.attack == GenerateAttack(rAttack) && enemy.enemyType == Choose(Types, rType)
    ensures enemy.personality == Choose(Personalities, rPersonality) && enemy.defence == GenerateDefence(rDefence)
    ensures enemy.name in Names && enemy.name != [] && enemy.enemyType in Types && enemy.enemyType != []
    ensures enemy.personality in Personalities && enemy.personality != []
    ensures 50 <= enemy.health <= 100 && 10 <= enemy.attack <= 30 && 5 <= enemy.defence <= 80
  {
    ListEntriesNonEmpty();
    var name := Choose(Names, rName);
    var health := GenerateHealth(rHealth);
    var attack := GenerateAttack(rAttack);
    var enemyType := Choose(Types, rType);
    var personality := Choose(Personalities, rPersonality);
    var defence := GenerateDefence(rDefence);
    enemy := new Enemy(name, health, attack, enemyType, defence, personality);
  }

  /** `isDead`: no health left. */
  predicate IsDead(enemy: Enemy)
    reads enemy
  {
    enemy.health <= 0
  }

  /** C++ integer division: the quotient rounded toward zero. */
  function TruncDiv(a: int, b: int): (q: int)
    requires b > 0
  {
    if a >= 0 then a / b else -((-a) / b)
  }

  /**
   * The hurt after the Sardaukar reduction: `hurt * 0.8` converted back to `int`, that is four fifths
   * rounded toward zero; other types take the hurt as it is.
   */
  function EffectiveHurt(enemyType: string, hurt: int): (h: int)
    ensures enemyType != "Sardaukar" ==> h == hurt
    ensures enemyType == "Sardaukar" && hurt >= 0 ==> 0 <= h <= hurt && 5 * h <= 4 * hurt < 5 * h + 5
  {
    if enemyType == "Sardaukar" then TruncDiv(hurt * 4, 5) else hurt
  }

  /**
   * The health `damageDelt` takes away, as written: the hurt times `1 - defence / 100` in integer
   * arithmetic. Any defence in (-100, 100) leaves the factor at 1, so the whole hurt is taken; a
   * defence from 100 to 199 makes the factor 0, so nothing is taken.
   */
  function HealthLoss(enemyType: string, hurt: int, defence: int): (loss: int)
    ensures -100 < defence < 100 ==> loss == EffectiveHurt(enemyType, hurt)
    ensures 100 <= defence < 200 ==> loss == 0
  {
    assert -100 < defence < 100 ==> TruncDiv(defence, 100) == 0;
    assert 100 <= defence < 200 ==> TruncDiv(defence, 100) == 1;
    EffectiveHurt(enemyType, hurt) * (1 - TruncDiv(defence, 100))
  }

  /** A concrete case: a Fremen with defence 50 hit for 20 loses 20 as written, against 10 once scaled. */
  lemma DefenceIgnoredExample()
    ensures HealthLoss("Fremen", 20, 50) == 20
    ensures ScaledLoss("Fremen", 20, 50) == 10
  {
    assert "Fremen" != "Sardaukar" by { assert "Fremen"[0] != "Sardaukar"[0]; }
  }

  /**
   * `damageDelt` as written: the health drops by `HealthLoss`; no other field changes.
   */
  method DamageDelt(enemy: Enemy, hurt: int)
    modifies enemy`health
    ensures enemy.health == old(enemy.health) - HealthLoss(enemy.enemyType, hurt, enemy.defence)
  {
    var h := hurt;
    if enemy.enemyType == "Sardaukar" {
      h := TruncDiv(h * 4, 5);
    }
    enemy.health := enemy.health - h * (1 - TruncDiv(enemy.defence, 100));
  }

  /**
   * The defence-scaled loss the damage rule is meant to apply: the hurt times
   * `(100 - defence) / 100`, rounded toward zero.
   */
  function ScaledLoss(enemyType: string, hurt: int, defence: int): int
  {
    TruncDiv(EffectiveHurt(enemyType, hurt) * (100 - defence), 100)
  }

  /**
   * For a hurt that is not negative and a defence in [0, 100], the scaled loss lies between none and
   * the whole hurt: all of it at defence 0, none at defence 100, and never more at a higher defence.
   */
  lemma {:induction false} ScaledLossBounds(enemyType: string, hurt: int, d1: int, d2: int)
    requires hurt >= 0 && 0 <= d1 <= d2 <= 100
    ensures 0 <= ScaledLoss(enemyType, hurt, d2) <= ScaledLoss(enemyType, hurt, d1) <= EffectiveHurt(enemyType, hurt)
    ensures ScaledLoss(enemyType, hurt, 0) == EffectiveHurt(enemyType, hurt)
    ensures ScaledLoss(enemyType, hurt, 100) == 0
  {
    var h := EffectiveHurt(enemyType, hurt);
    assert h >= 0;
    MulMono(h, 100 - d2, 100 - d1);
    MulMono(h, 100 - d1, 100);
    DivMono(h * (100 - d2), h * (100 - d1));
    DivMono(h * (100 - d1), h * 100);
    assert h * 100 / 100 == h;
  }

  lemma MulMono(h: int, a: int, b: int)
    requires h >= 0 && 0 <= a <= b
    ensures 0 <= h * a <= h * b
  {
  }

  lemma DivMono(a: int, b: int)
    requires 0 <= a <= b
    ensures 0 <= a / 100 <= b / 100
  {
  }

  /**
   * The damage rule with the defence applied as intended: the health drops by `ScaledLoss`; no other
   * field changes.
   */
  method DamageDeltScaled(enemy: Enemy, hurt: int)
    modifies enemy`health
    ensures enemy.health == old(enemy.health) - ScaledLoss(enemy.enemyType, hurt, enemy.defence)
  {
    var h := hurt;
    if enemy.enemyType == "Sardaukar" {
      h := TruncDiv(h * 4, 5);
    }
    enemy.health := enemy.health - TruncDiv(h * (100 - enemy.defence), 100);
  }

  /**
   * A blow at least as large as the remaining health kills a non-Sardaukar enemy whose defence the
   * spawner produced, as the rule is written.
   */
  lemma {:induction false} KillingBlow(enemyType: string, health: int, hurt: int, defence: int)
    requires enemyType != "Sardaukar" && 5 <= defence <= 80 && hurt >= health
    ensures health - HealthLoss(enemyType, hurt, defence) <= 0
  {
  }

  /** `setAttack`: stores the attack; nothing else changes. */
  method SetAttack(enemy: Enemy, attack: int)
    modifies enemy`attack
    ensures enemy.attack == attack
  {
    enemy.attack := attack;
  }

  /** `setHealth`: stores the health; nothing else changes. */
  method SetHealth(enemy: Enemy, health: int)
    modifies enemy`health
    ensures enemy.health == health
  {
    enemy.health := health;
  }
}
