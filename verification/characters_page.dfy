/**
 * The character-sheet page: the draft is a record of named fields with
 * defaults; one field changes at a time; submitting serialises every field,
 * in the draft's key order, into form entries (booleans as "true"/"false",
 * everything else through `String`), followed by the chosen images; editing
 * merges a stored character over the defaults.
 */
module CharactersPage {
  import opened Common

  /** A draft field's value: text, a number (possibly NaN) or a checkbox. */
  datatype DraftValue = Text(text: string) | Number(number: JsNumber) | Flag(flag: bool)

  datatype Ability = Strength | Dexterity | Constitution | Intelligence | Wisdom | Charisma

  datatype Skill =
    | Acrobatics | AnimalHandling | Arcana | Athletics | Deception | History | Insight
    | Intimidation | Investigation | Medicine | Nature | Perception | Performance
    | Persuasion | Religion | SleightOfHand | Stealth | Survival

  /** The draft's field names; `KeyName` gives the name the form and the server use. */
  datatype FieldKey =
    | Name | PlayerName | CharacterClassText | Level | Race | Background | Alignment | ExperiencePoints
    | AbilityScore(ability: Ability) | AbilityMod(ability: Ability)
    | SavingThrow(ability: Ability) | SavingThrowProf(ability: Ability)
    | SkillValue(skill: Skill) | SkillProf(skill: Skill)
    | MaxHitPoints | CurrentHitPoints | TemporaryHitPoints | ArmorClass | Initiative | Speed
    | Inspiration | ProficiencyBonus | PassivePerception | HitDiceTotal | HitDiceUsed | HitDiceType
    | DeathSaveSuccesses | DeathSaveFailures
    | Equipment | Treasure | Attacks | AttacksAndSpells | OtherProficiencies | PersonalityTraits
    | Ideals | Bonds | Flaws | FeaturesTraits | Age | Height | Weight | Eyes | Skin | Hair
    | Appearance | Backstory | AlliesOrganizations | AdditionalFeatures
    | SpellcastingClass | SpellcastingAbility | SpellSaveDc | SpellAttackBonus | SpellsCantrips
    | SpellSlotsTotal(level: nat) | SpellSlotsUsed(level: nat) | SpellsLevel(level: nat)

  function AbilityName(a: Ability): string {
    match a
    case Strength => "strength"
    case Dexterity => "dexterity"
    case Constitution => "constitution"
    case Intelligence => "intelligence"
    case Wisdom => "wisdom"
    case Charisma => "charisma"
  }

  function SkillName(s: Skill): string {
    match s
    case Acrobatics => "acrobatics"
    case AnimalHandling => "animal_handling"
    case Arcana => "arcana"
    case Athletics => "athletics"
    case Deception => "deception"
    case History => "history"
    case Insight => "insight"
    case Intimidation => "intimidation"
    case Investigation => "investigation"
    case Medicine => "medicine"
    case Nature => "nature"
    case Perception => "perception"
    case Performance => "performance"
    case Persuasion => "persuasion"
    case Religion => "religion"
    case SleightOfHand => "sleight_of_hand"
    case Stealth => "stealth"
    case Survival => "survival"
  }

  /** The key as written in the draft object, the form and the stored character. */
  function KeyName(k: FieldKey): string {
    match k
    case Name => "name"
    case PlayerName => "player_name"
    case CharacterClassText => "character_class_text"
    case Level => "level"
    case Race => "race"
    case Background => "background"
    case Alignment => "alignment"
    case ExperiencePoints => "experience_points"
    case AbilityScore(a) => AbilityName(a)
    case AbilityMod(a) => AbilityName(a) + "_mod"
    case SavingThrow(a) => "saving_throw_" + AbilityName(a)
    case SavingThrowProf(a) => "saving_throw_" + AbilityName(a) + "_prof"
    case SkillValue(s) => "skill_" + SkillName(s)
    case SkillProf(s) => "skill_" + SkillName(s) + "_prof"
    case MaxHitPoints => "max_hit_points"
    case CurrentHitPoints => "current_hit_points"
    case TemporaryHitPoints => "temporary_hit_points"
    case ArmorClass => "armor_class"
    case Initiative => "initiative"
    case Speed => "speed"
    case Inspiration => "inspiration"
    case ProficiencyBonus => "proficiency_bonus"
    case PassivePerception => "passive_perception"
    case HitDiceTotal => "hit_dice_total"
    case HitDiceUsed => "hit_dice_used"
    case HitDiceType => "hit_dice_type"
    case DeathSaveSuccesses => "death_save_successes"
    case DeathSaveFailures => "death_save_failures"
    case Equipment => "equipment"
    case Treasure => "treasure"
    case Attacks => "attacks"
    case AttacksAndSpells => "attacks_and_spells"
    case OtherProficiencies => "other_proficiencies"
    case PersonalityTraits => "personality_traits"
    case Ideals => "ideals"
    case Bonds => "bonds"
    case Flaws => "flaws"
    case FeaturesTraits => "features_traits"
    case Age => "age"
    case Height => "height"
    case Weight => "weight"
    case Eyes => "eyes"
    case Skin => "skin"
    case Hair => "hair"
    case Appearance => "appearance"
    case Backstory => "backstory"
    case AlliesOrganizations => "allies_organizations"
    case AdditionalFeatures => "additional_features"
    case SpellcastingClass => "spellcasting_class"
    case SpellcastingAbility => "spellcasting_ability"
    case SpellSaveDc => "spell_save_dc"
    case SpellAttackBonus => "spell_attack_bonus"
    case SpellsCantrips => "spells_cantrips"
    case SpellSlotsTotal(n) => "spell_slots_" + NatToString(n) + "_total"
    case SpellSlotsUsed(n) => "spell_slots_" + NatToString(n) + "_used"
    case SpellsLevel(n) => "spells_level_" + NatToString(n)
  }

  /** A field: its key and its value. */
  type Entry = (FieldKey, DraftValue)

  /** A draft: its fields in key order, as the object keeps them. */
  type Draft = seq<Entry>

  // ---------------------------------------------------------------------------
  // The default draft, in key order
  // ---------------------------------------------------------------------------

  /** Identity fields, `name` to `experience_points`. */
  function HeadEntries(): seq<Entry> {
    [ (Name, Text("")), (PlayerName, Text("")), (CharacterClassText, Text("")),
      (Level, Number(Num(1))), (Race, Text("")), (Background, Text("")),
      (Alignment, Text("")), (ExperiencePoints, Number(Num(0))) ]
  }

  /** The ability table: (score key, modifier key). */
  function AbilityFields(): seq<(FieldKey, FieldKey)> {
    [ (AbilityScore(Strength), AbilityMod(Strength)), (AbilityScore(Dexterity), AbilityMod(Dexterity)),
      (AbilityScore(Constitution), AbilityMod(Constitution)),
      (AbilityScore(Intelligence), AbilityMod(Intelligence)),
      (AbilityScore(Wisdom), AbilityMod(Wisdom)), (AbilityScore(Charisma), AbilityMod(Charisma)) ]
  }

  /** The saving-throw table: (value key, proficiency key). */
  function SavingThrowFields(): seq<(FieldKey, FieldKey)> {
    [ (SavingThrow(Strength), SavingThrowProf(Strength)),
      (SavingThrow(Dexterity), SavingThrowProf(Dexterity)),
      (SavingThrow(Constitution), SavingThrowProf(Constitution)),
      (SavingThrow(Intelligence), SavingThrowProf(Intelligence)),
      (SavingThrow(Wisdom), SavingThrowProf(Wisdom)),
      (SavingThrow(Charisma), SavingThrowProf(Charisma)) ]
  }

  /** The skill table: (value key, proficiency key). */
  function SkillFields(): seq<(FieldKey, FieldKey)> {
    [ (SkillValue(Acrobatics), SkillProf(Acrobatics)),
      (SkillValue(AnimalHandling), SkillProf(AnimalHandling)),
      (SkillValue(Arcana), SkillProf(Arcana)),
      (SkillValue(Athletics), SkillProf(Athletics)),
      (SkillValue(Deception), SkillProf(Deception)),
      (SkillValue(History), SkillProf(History)),
      (SkillValue(Insight), SkillProf(Insight)),
      (SkillValue(Intimidation), SkillProf(Intimidation)),
      (SkillValue(Investigation), SkillProf(Investigation)),
      (SkillValue(Medicine), SkillProf(Medicine)),
      (SkillValue(Nature), SkillProf(Nature)),
      (SkillValue(Perception), SkillProf(Perception)),
      (SkillValue(Performance), SkillProf(Performance)),
      (SkillValue(Persuasion), SkillProf(Persuasion)),
      (SkillValue(Religion), SkillProf(Religion)),
      (SkillValue(SleightOfHand), SkillProf(SleightOfHand)),
      (SkillValue(Stealth), SkillProf(Stealth)),
      (SkillValue(Survival), SkillProf(Survival)) ]
  }

  /**
   * A table's fields, two per row in row order, the first of each row set to
   * `first` and the second to `second`. The draft's ability, saving-throw and
   * skill fields are laid out this way.
   */
  function PairEntries(fields: seq<(FieldKey, FieldKey)>, first: DraftValue, second: DraftValue): Draft {
    seq(2 * |fields|, k requires 0 <= k < 2 * |fields| =>
      if k % 2 == 0 then (fields[k / 2].0, first) else (fields[k / 2].1, second))
  }

  /** Ability scores (10) and modifiers (0), in table order. */
  function AbilityEntries(): seq<Entry> {
    PairEntries(AbilityFields(), Number(Num(10)), Number(Num(0)))
  }

  /** Saving throws (0) and their proficiency checkboxes (unchecked), in table order. */
  function SavingThrowEntries(): seq<Entry> {
    PairEntries(SavingThrowFields(), Number(Num(0)), Flag(false))
  }

  /** Skills (0) and their proficiency checkboxes (unchecked), in table order. */
  function SkillEntries(): seq<Entry> {
    PairEntries(SkillFields(), Number(Num(0)), Flag(false))
  }

  /** Combat fields, `max_hit_points` to `death_save_failures`. */
  function CombatEntries(): seq<Entry> {
    [ (MaxHitPoints, Number(Num(10))), (CurrentHitPoints, Number(Num(10))),
      (TemporaryHitPoints, Number(Num(0))), (ArmorClass, Number(Num(10))),
      (Initiative, Number(Num(0))), (Speed, Number(Num(30))),
      (Inspiration, Flag(false)), (ProficiencyBonus, Number(Num(2))),
      (PassivePerception, Number(Num(10))), (HitDiceTotal, Number(Num(0))),
      (HitDiceUsed, Number(Num(0))), (HitDiceType, Text("")),
      (DeathSaveSuccesses, Number(Num(0))), (DeathSaveFailures, Number(Num(0))) ]
  }

  /** Free-text fields, `equipment` to `additional_features`. */
  function StoryEntries(): seq<Entry> {
    [ (Equipment, Text("")), (Treasure, Text("")), (Attacks, Text("")),
      (AttacksAndSpells, Text("")), (OtherProficiencies, Text("")),
      (PersonalityTraits, Text("")), (Ideals, Text("")), (Bonds, Text("")),
      (Flaws, Text("")), (FeaturesTraits, Text("")), (Age, Text("")),
      (Height, Text("")), (Weight, Text("")), (Eyes, Text("")), (Skin, Text("")),
      (Hair, Text("")), (Appearance, Text("")), (Backstory, Text("")),
      (AlliesOrganizations, Text("")), (AdditionalFeatures, Text("")) ]
  }

  /** Spellcasting fields before the per-level slots. */
  function SpellcastingEntries(): seq<Entry> {
    [ (SpellcastingClass, Text("")), (SpellcastingAbility, Text("")),
      (SpellSaveDc, Number(Num(0))), (SpellAttackBonus, Number(Num(0))),
      (SpellsCantrips, Text("")) ]
  }

  /** Per spell level, level by level: total slots (0), used slots (0) and the spell list (""). */
  function LevelEntries(levels: seq<nat>): Draft {
    seq(3 * |levels|, k requires 0 <= k < 3 * |levels| =>
      var n := levels[k / 3];
      if k % 3 == 0 then (SpellSlotsTotal(n), Number(Num(0)))
      else if k % 3 == 1 then (SpellSlotsUsed(n), Number(Num(0)))
      else (SpellsLevel(n), Text("")))
  }

  /** The spell-slot fields of levels 1 to 9. */
  function SpellSlotEntries(): seq<Entry> {
    LevelEntries(SpellLevels)
  }

  /** The spell levels the form shows. */
  const SpellLevels: seq<nat> := [1, 2, 3, 4, 5, 6, 7, 8, 9]

  /** The three fields of one spell level, as the form refers to them. */
  function SpellSlotKeys(level: nat): seq<FieldKey> {
    [SpellSlotsTotal(level), SpellSlotsUsed(level), SpellsLevel(level)]
  }

  /** `defaultDraft`, field by field in declaration order. */
  function DefaultDraft(): Draft {
    HeadEntries() + (AbilityEntries() + (SavingThrowEntries() + (SkillEntries()
    + (CombatEntries() + (StoryEntries() + (SpellcastingEntries() + SpellSlotEntries()))))))
  }

  /** The draft has a field with this key. */
  predicate HasKey(d: Draft, key: FieldKey) {
    exists i :: 0 <= i < |d| && d[i].0 == key
  }

  /** Two drafts have the same keys in the same order. */
  predicate SameKeys(a: Draft, b: Draft) {
    |a| == |b| && forall i :: 0 <= i < |a| ==> a[i].0 == b[i].0
  }

  /**
   * `{ ...prev, [key]: value }` for a key the draft has: the field keeps its
   * place and takes the value; every other field is kept.
   */
  function SetField(d: Draft, key: FieldKey, value: DraftValue): (r: Draft)
    ensures SameKeys(r, d)
    ensures forall i :: 0 <= i < |d| && d[i].0 == key ==> r[i].1 == value
    ensures forall i :: 0 <= i < |d| && d[i].0 != key ==> r[i] == d[i]
  {
    MapSeq(d, (e: Entry) => if e.0 == key then (key, value) else e)
  }

  /** A block of fields lists a table's keys two per row, in row order. */
  predicate RowsMatch(block: Draft, fields: seq<(FieldKey, FieldKey)>) {
    |block| == 2 * |fields| &&
    forall i :: 0 <= i < |fields| ==> block[2 * i].0 == fields[i].0 && block[2 * i + 1].0 == fields[i].1
  }

  /** Laying a table out two fields per row puts each row's keys at its two places. */
  lemma PairEntriesMatchRows(fields: seq<(FieldKey, FieldKey)>, first: DraftValue, second: DraftValue)
    ensures RowsMatch(PairEntries(fields, first, second), fields)
  {
    var r := PairEntries(fields, first, second);
    forall i | 0 <= i < |fields|
      ensures r[2 * i].0 == fields[i].0 && r[2 * i + 1].0 == fields[i].1
    {
      assert (2 * i) / 2 == i && (2 * i) % 2 == 0;
      assert (2 * i + 1) / 2 == i && (2 * i + 1) % 2 == 1;
    }
  }

  /** A block of fields holds the three fields of each level, level by level. */
  predicate LevelsMatch(block: Draft, levels: seq<nat>) {
    |block| == 3 * |levels| &&
    forall i, j :: 0 <= i < |levels| && 0 <= j < 3 ==> block[3 * i + j].0 == SpellSlotKeys(levels[i])[j]
  }

  /** Laying the levels out three fields each puts every level's fields at its three places. */
  lemma LevelEntriesMatchLevels(levels: seq<nat>)
    ensures LevelsMatch(LevelEntries(levels), levels)
  {
    var r := LevelEntries(levels);
    forall i, j | 0 <= i < |levels| && 0 <= j < 3
      ensures r[3 * i + j].0 == SpellSlotKeys(levels[i])[j]
    {
      assert (3 * i + j) / 3 == i && (3 * i + j) % 3 == j;
    }
  }

  /** A key the tail has is a key of the draft that ends with it. */
  lemma HasKeyAfter(before: Draft, rest: Draft, key: FieldKey)
    requires HasKey(rest, key)
    ensures HasKey(before + rest, key)
  {
    var i :| 0 <= i < |rest| && rest[i].0 == key;
    assert (before + rest)[|before| + i] == rest[i];
  }

  /** When a block lists a table's keys two per row, every row's keys are keys of the block and what follows. */
  lemma PairTableKeys(block: Draft, after: Draft, fields: seq<(FieldKey, FieldKey)>)
    requires RowsMatch(block, fields)
    ensures forall i :: 0 <= i < |fields| ==> HasKey(block + after, fields[i].0) && HasKey(block + after, fields[i].1)
  {
    forall i | 0 <= i < |fields|
      ensures HasKey(block + after, fields[i].0) && HasKey(block + after, fields[i].1)
    {
      assert (block + after)[2 * i] == block[2 * i];
      assert (block + after)[2 * i + 1] == block[2 * i + 1];
    }
  }

  /** Every key of the ability table is a field of the default draft. */
  lemma AbilityKeysAreDraftKeys()
    ensures forall i :: 0 <= i < |AbilityFields()| ==>
      HasKey(DefaultDraft(), AbilityFields()[i].0) && HasKey(DefaultDraft(), AbilityFields()[i].1)
  {
    var rest := SavingThrowEntries() + (SkillEntries() + (CombatEntries() + (StoryEntries() + (SpellcastingEntries() + SpellSlotEntries()))));
    PairEntriesMatchRows(AbilityFields(), Number(Num(10)), Number(Num(0)));
    PairTableKeys(AbilityEntries(), rest, AbilityFields());
    forall key | HasKey(AbilityEntries() + rest, key)
      ensures HasKey(DefaultDraft(), key)
    {
      HasKeyAfter(HeadEntries(), AbilityEntries() + rest, key);
    }
  }

  /** Every key of the saving-throw table is a field of the default draft. */
  lemma SavingThrowKeysAreDraftKeys()
    ensures forall i :: 0 <= i < |SavingThrowFields()| ==>
      HasKey(DefaultDraft(), SavingThrowFields()[i].0) && HasKey(DefaultDraft(), SavingThrowFields()[i].1)
  {
    var rest := SkillEntries() + (CombatEntries() + (StoryEntries() + (SpellcastingEntries() + SpellSlotEntries())));
    PairEntriesMatchRows(SavingThrowFields(), Number(Num(0)), Flag(false));
    PairTableKeys(SavingThrowEntries(), rest, SavingThrowFields());
    forall key | HasKey(SavingThrowEntries() + rest, key)
      ensures HasKey(DefaultDraft(), key)
    {
      HasKeyAfter(AbilityEntries(), SavingThrowEntries() + rest, key);
      HasKeyAfter(HeadEntries(), AbilityEntries() + (SavingThrowEntries() + rest), key);
    }
  }

  /** Every key of the skill table is a field of the default draft. */
  lemma SkillKeysAreDraftKeys()
    ensures forall i :: 0 <= i < |SkillFields()| ==>
      HasKey(DefaultDraft(), SkillFields()[i].0) && HasKey(DefaultDraft(), SkillFields()[i].1)
  {
    var rest := CombatEntries() + (StoryEntries() + (SpellcastingEntries() + SpellSlotEntries()));
    PairEntriesMatchRows(SkillFields(), Number(Num(0)), Flag(false));
    PairTableKeys(SkillEntries(), rest, SkillFields());
    forall key | HasKey(SkillEntries() + rest, key)
      ensures HasKey(DefaultDraft(), key)
    {
      var tail := SkillEntries() + rest;
      HasKeyAfter(SavingThrowEntries(), tail, key);
      HasKeyAfter(AbilityEntries(), SavingThrowEntries() + tail, key);
      HasKeyAfter(HeadEntries(), AbilityEntries() + (SavingThrowEntries() + tail), key);
    }
  }

  /** The three fields of every spell level 1 to 9 are fields of the default draft. */
  lemma SpellSlotKeysAreDraftKeys()
    ensures forall i, j :: 0 <= i < |SpellLevels| && 0 <= j < 3 ==>
      HasKey(DefaultDraft(), SpellSlotKeys(SpellLevels[i])[j])
  {
    var sp := SpellSlotEntries();
    LevelEntriesMatchLevels(SpellLevels);
    forall i, j | 0 <= i < |SpellLevels| && 0 <= j < 3
      ensures HasKey(DefaultDraft(), SpellSlotKeys(SpellLevels[i])[j])
    {
      var key := SpellSlotKeys(SpellLevels[i])[j];
      assert sp[3 * i + j].0 == key;
      HasKeyAfter(SpellcastingEntries(), sp, key);
      HasKeyAfter(StoryEntries(), SpellcastingEntries() + sp, key);
      HasKeyAfter(CombatEntries(), StoryEntries() + (SpellcastingEntries() + sp), key);
      var t := CombatEntries() + (StoryEntries() + (SpellcastingEntries() + sp));
      HasKeyAfter(SkillEntries(), t, key);
      HasKeyAfter(SavingThrowEntries(), SkillEntries() + t, key);
      HasKeyAfter(AbilityEntries(), SavingThrowEntries() + (SkillEntries() + t), key);
      HasKeyAfter(HeadEntries(), AbilityEntries() + (SavingThrowEntries() + (SkillEntries() + t)), key);
    }
  }

  // ---------------------------------------------------------------------------
  // Serialisation
  // ---------------------------------------------------------------------------

  /** An image the user picked; only its identity matters here. */
  datatype ImageFile = ImageFile(handle: nat)

  datatype FormPart = TextPart(text: string) | FilePart(file: ImageFile)
  datatype FormEntry = FormEntry(name: string, part: FormPart)

  /** `String(n)` on a number. */
  function NumberText(n: JsNumber): string {
    if n.NaN? then "NaN" else IntToString(n.value)
  }

  /** How a field travels: booleans as "true"/"false", everything else through `String`. */
  function Encode(v: DraftValue): (s: string)
    ensures v.Flag? ==> s == (if v.flag then "true" else "false")
    ensures v.Text? ==> s == v.text
  {
    match v
    case Text(t) => t
    case Number(n) => NumberText(n)
    case Flag(b) => if b then "true" else "false"
  }

  /** How a receiver reads a field back, knowing which kind of field it is. */
  function DecodeLike(kind: DraftValue, s: string): DraftValue {
    match kind
    case Text(_) => Text(s)
    case Number(_) => Number(ParseNumber(s))
    case Flag(_) => Flag(s == "true")
  }

  /** Every field value survives serialisation: reading it back gives the same value. */
  lemma EncodeReadsBack(v: DraftValue)
    ensures DecodeLike(v, Encode(v)) == v
  {
    match v
    case Text(_) =>
    case Flag(_) =>
    case Number(n) =>
      if n.NaN? {
        assert IsTrimmed("NaN");
        TrimOfTrimmed("NaN");
        assert !IsDigit('N');
      } else {
        NumberOfIntToString(n.value);
      }
  }

  /** One field's entry: the key's name and the value as it travels. */
  function FieldEntry(e: Entry): FormEntry {
    FormEntry(KeyName(e.0), TextPart(Encode(e.1)))
  }

  /** The entries for the draft's fields, one per field in key order. */
  function FieldEntries(d: Draft): (r: seq<FormEntry>)
    ensures |r| == |d|
    ensures forall i :: 0 <= i < |d| ==> r[i] == FieldEntry(d[i])
  {
    if d == [] then [] else [FieldEntry(d[0])] + FieldEntries(d[1..])
  }

  /** The chosen images, appearance first, only those chosen. */
  function ImageEntries(appearance: Option<ImageFile>, symbol: Option<ImageFile>): seq<FormEntry> {
    (if appearance.Some? then [FormEntry("appearance_image", FilePart(appearance.value))] else [])
    + (if symbol.Some? then [FormEntry("symbol_image", FilePart(symbol.value))] else [])
  }

  /** `handleSubmit`'s form building: one entry per field, then the images. */
  method Serialize(d: Draft, appearance: Option<ImageFile>, symbol: Option<ImageFile>)
    returns (form: seq<FormEntry>)
    ensures form == FieldEntries(d) + ImageEntries(appearance, symbol)
  {
    form := AppendFields(d);
    var images := [];
    if appearance.Some? {
      images := [FormEntry("appearance_image", FilePart(appearance.value))];
    }
    if symbol.Some? {
      images := images + [FormEntry("symbol_image", FilePart(symbol.value))];
    }
    form := form + images;
  }

  /** The loop over the draft's entries: one entry per field, in key order. */
  method AppendFields(d: Draft) returns (form: seq<FormEntry>)
    ensures form == FieldEntries(d)
  {
    form := [];
    var i := 0;
    while i < |d|
      invariant 0 <= i <= |d|
      invariant |form| == i
      invariant forall j :: 0 <= j < i ==> form[j] == FieldEntry(d[j])
    {
      form := form + [FieldEntry(d[i])];
      i := i + 1;
    }
  }

  /**
   * The serialised form names the draft's keys in order, each field reads
   * back as the draft's value, and the images come last, one entry per
   * chosen file.
   */
  lemma SerializedForm(d: Draft, appearance: Option<ImageFile>, symbol: Option<ImageFile>)
    ensures var form := FieldEntries(d) + ImageEntries(appearance, symbol);
      |form| == |d| + (if appearance.Some? then 1 else 0) + (if symbol.Some? then 1 else 0) &&
      (forall i :: 0 <= i < |d| ==>
        form[i].name == KeyName(d[i].0) && form[i].part.TextPart? &&
        DecodeLike(d[i].1, form[i].part.text) == d[i].1) &&
      form[|d|..] == ImageEntries(appearance, symbol)
  {
    var form := FieldEntries(d) + ImageEntries(appearance, symbol);
    forall i | 0 <= i < |d|
      ensures DecodeLike(d[i].1, form[i].part.text) == d[i].1
    {
      EncodeReadsBack(d[i].1);
    }
  }

  // ---------------------------------------------------------------------------
  // Edit merge
  // ---------------------------------------------------------------------------

  /**
   * A stored character as the page sees it: a present key maps to its value,
   * or to `None` for null or undefined; an absent key is not a property.
   */
  type Stored = map<string, Option<DraftValue>>

  /** `character[key] ?? fallback`, applied only to keys the character has. */
  function MergedValue(character: Stored, key: FieldKey, fallback: DraftValue): DraftValue {
    var name := KeyName(key);
    if name in character && character[name].Some? then character[name].value else fallback
  }

  /** `handleEdit`'s new draft: the merge over the defaults, then the class text from the class name. */
  method EditDraft(defaults: Draft, character: Stored, className: Option<string>) returns (next: Draft)
    ensures SameKeys(next, defaults)
    ensures forall i :: 0 <= i < |next| ==>
      next[i].1 == if next[i].0 == CharacterClassText then ClassText(className)
                   else MergedValue(character, next[i].0, defaults[i].1)
  {
    var merged := MergeOverDefaults(defaults, character);
    next := SetField(merged, CharacterClassText, ClassText(className));
  }

  /** The loop of `handleEdit`: start from the defaults and take each present, non-null value. */
  method MergeOverDefaults(defaults: Draft, character: Stored) returns (next: Draft)
    ensures |next| == |defaults|
    ensures forall i :: 0 <= i < |defaults| ==>
      next[i] == (defaults[i].0, MergedValue(character, defaults[i].0, defaults[i].1))
  {
    next := defaults;
    var i := 0;
    while i < |defaults|
      invariant 0 <= i <= |defaults|
      invariant |next| == |defaults|
      invariant forall j :: 0 <= j < |defaults| ==>
        next[j] == if j < i then (defaults[j].0, MergedValue(character, defaults[j].0, defaults[j].1)) else defaults[j]
    {
      var key := next[i].0;
      var name := KeyName(key);
      if name in character {
        next := next[i := (key, if character[name].Some? then character[name].value else next[i].1)];
      }
      i := i + 1;
    }
  }

  /** `character_class_name || ""`. */
  function ClassText(className: Option<string>): DraftValue {
    Text(if className.Some? then className.value else "")
  }

  // ---------------------------------------------------------------------------
  // The page
  // ---------------------------------------------------------------------------

  datatype SaveCall = UpdateCharacter(id: int, form: seq<FormEntry>) | CreateCharacter(form: seq<FormEntry>)
  datatype CallResult = Succeeded | Failed(message: string)

  class CharacterSheetForm {
    /** The page's `defaultDraft`. */
    const defaults: Draft
    var draft: Draft
    var editingId: Option<int>
    var appearanceFile: Option<ImageFile>
    var symbolFile: Option<ImageFile>
    var appearancePreview: Option<string>
    var symbolPreview: Option<string>
    var error: Option<string>

    /** The draft always has exactly the default draft's fields. */
    ghost predicate Valid()
      reads this
    {
      SameKeys(draft, defaults)
    }

    constructor ()
      ensures defaults == DefaultDraft()
      ensures Valid()
      ensures draft == defaults && editingId.None?
      ensures appearanceFile.None? && symbolFile.None? && appearancePreview.None? && symbolPreview.None?
    {
      defaults := DefaultDraft();
      draft := defaults;
      editingId := None;
      appearanceFile, symbolFile := None, None;
      appearancePreview, symbolPreview := None, None;
      error := None;
    }

    /** `updateDraft`: one field takes the new value; every other field is kept. */
    method UpdateDraft(key: FieldKey, value: DraftValue)
      requires Valid() && HasKey(defaults, key)
      modifies this`draft
      ensures Valid()
      ensures draft == SetField(old(draft), key, value)
    {
      draft := SetField(draft, key, value);
    }

    /**
     * `handleSubmit`: the form carries every field in key order and the
     * chosen images; a truthy editing id updates, otherwise it creates. On
     * success the page resets; on failure only the error changes.
     */
    method HandleSubmit(result: CallResult) returns (call: SaveCall)
      requires Valid()
      modifies this
      ensures Valid()
      ensures var form := FieldEntries(old(draft)) + ImageEntries(old(appearanceFile), old(symbolFile));
        call == if IdTruthy(old(editingId)) then UpdateCharacter(old(editingId).value, form) else CreateCharacter(form)
      ensures result.Succeeded? ==>
        error.None? && draft == defaults && editingId.None? &&
        appearanceFile.None? && symbolFile.None? && appearancePreview.None? && symbolPreview.None?
      ensures result.Failed? ==>
        error == Some(result.message) && draft == old(draft) && editingId == old(editingId) &&
        appearanceFile == old(appearanceFile) && symbolFile == old(symbolFile) &&
        appearancePreview == old(appearancePreview) && symbolPreview == old(symbolPreview)
    {
      error := None;
      var form := Serialize(draft, appearanceFile, symbolFile);
      if IdTruthy(editingId) {
        call := UpdateCharacter(editingId.value, form);
      } else {
        call := CreateCharacter(form);
      }
      if result.Failed? {
        error := Some(result.message);
        return;
      }
      Reset();
    }

    /** The cancel button and the success path: defaults, no edit, no files, no previews. */
    method Reset()
      modifies this`draft, this`editingId, this`appearanceFile, this`symbolFile, this`appearancePreview, this`symbolPreview
      ensures Valid()
      ensures draft == defaults && editingId.None?
      ensures appearanceFile.None? && symbolFile.None? && appearancePreview.None? && symbolPreview.None?
    {
      editingId := None;
      draft := defaults;
      appearanceFile, symbolFile := None, None;
      appearancePreview, symbolPreview := None, None;
    }

    /**
     * `handleEdit`: the draft has exactly the default fields, each taking the
     * character's value when present and not null, else the default; the
     * class text is the class name or "".
     */
    method HandleEdit(id: int, character: Stored, className: Option<string>,
                      appearanceImage: Option<string>, symbolImage: Option<string>)
      modifies this`editingId, this`draft, this`appearanceFile, this`symbolFile
      modifies this`appearancePreview, this`symbolPreview
      ensures Valid()
      ensures editingId == Some(id)
      ensures forall i :: 0 <= i < |draft| ==>
        draft[i].1 == if draft[i].0 == CharacterClassText then ClassText(className)
                      else MergedValue(character, draft[i].0, defaults[i].1)
      ensures appearanceFile.None? && symbolFile.None?
      ensures appearancePreview == appearanceImage && symbolPreview == symbolImage
    {
      editingId := Some(id);
      draft := EditDraft(defaults, character, className);
      appearanceFile, symbolFile := None, None;
      appearancePreview, symbolPreview := appearanceImage, symbolImage;
    }
  }
}
