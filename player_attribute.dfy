/**
 * PlayerAttribute: a record of 29 numeric combat attributes plus two
 * effect maps, addressed by name. Every field has an English name (matched
 * case-insensitively) and a Chinese name; an unknown name reads as 0 and
 * writes nothing.
 */
module PlayerAttribute {
  import opened JavaText

  /** The 29 numeric fields of the record. */
  datatype Field =
    | Damage | TrueDamage | SumDamage | FinalDamage | FinalTrueDamage | MobDamage | SumMobDamage
    | AoeDamage | AoeRange | Crit | CritDamage | CritArmor | CritBreaker | Armor | TrueArmor
    | Dodge | DodgeBreaker | Block | BlockBreaker | ArmorBreak | Health | HealthHeal | LifeSteal
    | FinalHealth | MoveSpeed | AttackSpeed | Injury | Weaken | MobDamageRemove

  /** One case of the name switch: the lower-case English name and the Chinese name of a field. */
  datatype FieldName = FieldName(english: string, chinese: string, field: Field)

  /** The cases of getAttribute and setAttribute, in switch order. */
  const FieldNames: seq<FieldName> := [
    FieldName("damage", "攻击伤害", Damage),
    FieldName("truedamage", "真实伤害", TrueDamage),
    FieldName("sumdamage", "总伤害", SumDamage),
    FieldName("finaldamage", "百分比伤害", FinalDamage),
    FieldName("finaltruedamage", "百分比真实伤害", FinalTrueDamage),
    FieldName("mobdamage", "对怪物造成的额外伤害", MobDamage),
    FieldName("summobdamage", "对怪物造成的总额外伤害", SumMobDamage),
    FieldName("aoedamage", "范围伤害", AoeDamage),
    FieldName("aoerange", "伤害范围", AoeRange),
    FieldName("crit", "致命几率", Crit),
    FieldName("critdamage", "致命伤害", CritDamage),
    FieldName("critarmor", "致命抗性", CritArmor),
    FieldName("critbreaker", "招架几率", CritBreaker),
    FieldName("armor", "伤害减免", Armor),
    FieldName("truearmor", "真实抗性", TrueArmor),
    FieldName("dodge", "闪避几率", Dodge),
    FieldName("dodgebreaker", "破闪几率", DodgeBreaker),
    FieldName("block", "格挡几率", Block),
    FieldName("blockbreaker", "强化重击", BlockBreaker),
    FieldName("armorbreak", "护甲穿透", ArmorBreak),
    FieldName("health", "生命值", Health),
    FieldName("healthheal", "生命恢复", HealthHeal),
    FieldName("lifesteal", "生命偷取", LifeSteal),
    FieldName("finalhealth", "百分比生命", FinalHealth),
    FieldName("movespeed", "移动速度", MoveSpeed),
    FieldName("attackspeed", "攻击速度", AttackSpeed),
    FieldName("injury", "反伤几率", Injury),
    FieldName("weaken", "弱化几率", Weaken),
    FieldName("mobdamageremove", "对怪物的伤害免疫", MobDamageRemove)
  ]

  /** The case `c` carries `name` as its English or its Chinese name. */
  predicate Names(c: FieldName, name: string)
  {
    c.english == name || c.chinese == name
  }

  /** The field of the first case from index `i` on that carries `name`. */
  function Search(table: seq<FieldName>, i: nat, name: string): Option<Field>
    decreases |table| - i
  {
    if i >= |table| then None
    else if Names(table[i], name) then Some(table[i].field)
    else Search(table, i + 1, name)
  }

  /** The search finds a field exactly when a case from index `i` on carries the name, and the field found is that of such a case. */
  lemma {:induction false} SearchFound(table: seq<FieldName>, i: nat, name: string)
    ensures Search(table, i, name).None? <==> forall j :: i <= j < |table| ==> !Names(table[j], name)
    ensures Search(table, i, name).Some? ==>
      exists j :: i <= j < |table| && Names(table[j], name) && table[j].field == Search(table, i, name).value
    decreases |table| - i
  {
    if i < |table| && !Names(table[i], name) {
      SearchFound(table, i + 1, name);
    }
  }

  /** The first case carrying the name decides, whatever follows it. */
  lemma {:induction false} SearchAt(table: seq<FieldName>, i: nat, j: nat, name: string)
    requires i <= j < |table| && Names(table[j], name)
    requires forall k :: i <= k < j ==> !Names(table[k], name)
    ensures Search(table, i, name) == Some(table[j].field)
    decreases j - i
  {
    if i < j {
      SearchAt(table, i + 1, j, name);
    }
  }

  /** The switch on attributeName.toLowerCase(): the field the name selects, if any. */
  function FieldOf(name: string): Option<Field>
  {
    Search(FieldNames, 0, ToLower(name))
  }

  /** English names are case-insensitive: a name and its lower case select the same field. */
  lemma {:induction false} FieldOfIgnoresCase(name: string)
    ensures FieldOf(name) == FieldOf(ToLower(name))
  {
    ToLowerIdempotent(name);
  }

  /** `damage` selects the damage field. */
  lemma {:induction false} DamageEnglish()
    ensures FieldOf("damage") == Some(Damage)
  {
    ToLowerOfLower("damage");
    SearchAt(FieldNames, 0, 0, "damage");
  }

  /** `攻击伤害` selects the damage field too. */
  lemma {:induction false} DamageChinese()
    ensures FieldOf("攻击伤害") == Some(Damage)
  {
    ToLowerOfLower("攻击伤害");
    SearchAt(FieldNames, 0, 0, "攻击伤害");
  }

  lemma {:induction false} DamageCapitalised()
    ensures ToLower("Damage") == "damage"
  {
  }

  /** Both names of a field reach it: `damage`, `Damage` and `攻击伤害` read and write the same value. */
  lemma {:induction false} DamageAliases()
    ensures FieldOf("damage") == FieldOf("攻击伤害") == FieldOf("Damage") == Some(Damage)
  {
    DamageEnglish();
    DamageChinese();
    FieldOfIgnoresCase("Damage");
    DamageCapitalised();
  }

  // ------------------------------------------------------ values

  /** The value getAttribute reads through a selector: the selected field, or 0 when no field is selected. */
  function Read(values: Field -> real, sel: Option<Field>): real
  {
    match sel
    case None => 0.0
    case Some(f) => values(f)
  }

  /** The fields after setAttribute through a selector: only the selected field changes. */
  function Written(values: Field -> real, sel: Option<Field>, value: real): Field -> real
  {
    match sel
    case None => values
    case Some(f) => (g: Field) => if g == f then value else values(g)
  }

  /** Reading a recognised name after writing it gives the written value. */
  lemma {:induction false} ReadAfterWrite(values: Field -> real, name: string, value: real)
    requires FieldOf(name).Some?
    ensures Read(Written(values, FieldOf(name), value), FieldOf(name)) == value
  {
  }

  /** A write through one name is seen through every other name of the same field. */
  lemma {:induction false} WriteSeenThroughAlias(values: Field -> real, name: string, alias: string, value: real)
    requires FieldOf(name).Some? && FieldOf(alias) == FieldOf(name)
    ensures Read(Written(values, FieldOf(name), value), FieldOf(alias)) == value
  {
  }

  /** A write changes exactly the selected field. */
  lemma {:induction false} WriteFrame(values: Field -> real, name: string, value: real, g: Field)
    requires FieldOf(name) != Some(g)
    ensures Written(values, FieldOf(name), value)(g) == values(g)
  {
  }

  /** Writing an unrecognised name leaves every field as it was, and reading it gives 0. */
  lemma {:induction false} UnknownName(values: Field -> real, name: string, value: real)
    requires FieldOf(name).None?
    ensures Written(values, FieldOf(name), value) == values && Read(values, FieldOf(name)) == 0.0
  {
  }

  /** Writing back what was read changes nothing. */
  lemma {:induction false} WriteReadBack(values: Field -> real, name: string, g: Field)
    ensures Written(values, FieldOf(name), Read(values, FieldOf(name)))(g) == values(g)
  {
  }

  // ------------------------------------------------------ the record

  class PlayerAttribute {
    /** The 29 numeric fields. */
    var values: Field -> real
    var buffEffects: map<string, real>
    var typeEffects: map<string, real>

    /** The builder (and the no-argument constructor): every field 0, both maps empty. */
    constructor ()
      ensures forall f :: values(f) == 0.0
      ensures buffEffects == map[] && typeEffects == map[]
    {
      values := (f: Field) => 0.0;
      buffEffects := map[];
      typeEffects := map[];
    }

    /** getAttribute. */
    function GetAttribute(name: string): (r: real)
      reads this
      ensures FieldOf(name).Some? ==> r == values(FieldOf(name).value)
      ensures FieldOf(name).None? ==> r == 0.0
    {
      Read(values, FieldOf(name))
    }

    /** setAttribute: the selected field takes the value; nothing else changes. */
    method SetAttribute(name: string, value: real)
      modifies this
      ensures values == Written(old(values), FieldOf(name), value)
      ensures buffEffects == old(buffEffects) && typeEffects == old(typeEffects)
    {
      SetField(FieldOf(name), value);
    }

    /** addAttribute: set the field to what getAttribute reads plus the value. */
    method AddAttribute(name: string, value: real)
      modifies this
      ensures var sel := FieldOf(name); values == Written(old(values), sel, Read(old(values), sel) + value)
      ensures buffEffects == old(buffEffects) && typeEffects == old(typeEffects)
    {
      AddField(FieldOf(name), value);
    }

    /** The write behind setAttribute, once the name has selected a field (or none). */
    method SetField(sel: Option<Field>, value: real)
      modifies this
      ensures values == Written(old(values), sel, value)
      ensures buffEffects == old(buffEffects) && typeEffects == old(typeEffects)
    {
      match sel
      case None =>
      case Some(f) =>
        var previous := values;
        values := (g: Field) => if g == f then value else previous(g);
    }

    /** The read-then-write behind addAttribute, once the name has selected a field (or none). */
    method AddField(sel: Option<Field>, value: real)
      modifies this
      ensures values == Written(old(values), sel, Read(old(values), sel) + value)
      ensures buffEffects == old(buffEffects) && typeEffects == old(typeEffects)
    {
      var current := Read(values, sel);
      SetField(sel, current + value);
    }

    /** reset: every field back to 0 and both maps emptied, as the builder leaves them. */
    method Reset()
      modifies this
      ensures forall f :: values(f) == 0.0
      ensures buffEffects == map[] && typeEffects == map[]
    {
      values := (f: Field) => 0.0;
      buffEffects := map[];
      typeEffects := map[];
    }
  }

  /** After add, a recognised name reads its old value plus the amount; other fields read as before. */
  lemma {:induction false} ReadAfterAdd(values: Field -> real, name: string, amount: real, other: string)
    requires FieldOf(name).Some?
    ensures Read(Written(values, FieldOf(name), Read(values, FieldOf(name)) + amount), FieldOf(name)) == Read(values, FieldOf(name)) + amount
    ensures FieldOf(other) != FieldOf(name) ==>
      Read(Written(values, FieldOf(name), Read(values, FieldOf(name)) + amount), FieldOf(other)) == Read(values, FieldOf(other))
  {
  }
}
