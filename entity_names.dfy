/** How the entity manager turns the name of an enabled Unity object into an entity
    type and an instance id: an ordered list of substring rules where the first match
    wins, then the id is read from the last space-separated token of what is left of
    the name once the rule's pattern is removed. */
module EntityNames {
  import opened Common
  import opened Strings
  import opened EnemyIds

  /** The entity types an entity can be registered under. */
  datatype EntityType =
    | GruzMother | FalseKnight | MossCharger | WanderingHusk | HuskBully | LeapingHusk
    | HuskHornhead | HuskWarrior | HuskGuard | Tiktik | Crawlid | Gruzzer | AspidHunter
    | Vengefly | Goam | AspidMother | Baldur | ElderBaldur | BroodingMawlek | Mosscreep
    | Mosskin | VolatileMosskin | FoolEater | Squit | Obble | Durandoo | Gulka | Duranda
    | MossKnight | BattleGate | MantisLord | MantisLordS1 | MantisLordS2

  /** How many types an entity can be registered under. The real enum also has `None`
      and members named only by disabled rules; nothing is ever registered under them,
      so they are left out. The numeric values of the real enum are not part of this
      model: members are numbered here in declaration order, and all that is used is
      that the cast between a member and its byte is one-to-one. */
  const TypeCount := 33

  /** `(EntityType)b`: the member a byte names, if any. */
  function TypeOf(b: byte): (t: Option<EntityType>)
    ensures t.Some? <==> b < TypeCount
  {
    match b
    case 0 => Some(GruzMother) case 1 => Some(FalseKnight) case 2 => Some(MossCharger)
    case 3 => Some(WanderingHusk) case 4 => Some(HuskBully) case 5 => Some(LeapingHusk)
    case 6 => Some(HuskHornhead) case 7 => Some(HuskWarrior) case 8 => Some(HuskGuard)
    case 9 => Some(Tiktik) case 10 => Some(Crawlid) case 11 => Some(Gruzzer)
    case 12 => Some(AspidHunter) case 13 => Some(Vengefly) case 14 => Some(Goam)
    case 15 => Some(AspidMother) case 16 => Some(Baldur) case 17 => Some(ElderBaldur)
    case 18 => Some(BroodingMawlek) case 19 => Some(Mosscreep) case 20 => Some(Mosskin)
    case 21 => Some(VolatileMosskin) case 22 => Some(FoolEater) case 23 => Some(Squit)
    case 24 => Some(Obble) case 25 => Some(Durandoo) case 26 => Some(Gulka)
    case 27 => Some(Duranda) case 28 => Some(MossKnight) case 29 => Some(BattleGate)
    case 30 => Some(MantisLord) case 31 => Some(MantisLordS1) case 32 => Some(MantisLordS2) case _ => None
  }

  /** `(byte)entityType`: a member's byte, which casts back to the member. */
  function Code(t: EntityType): (b: byte)
    ensures b < TypeCount && TypeOf(b) == Some(t)
  {
    match t
    case GruzMother => 0 case FalseKnight => 1 case MossCharger => 2 case WanderingHusk => 3
    case HuskBully => 4 case LeapingHusk => 5 case HuskHornhead => 6 case HuskWarrior => 7
    case HuskGuard => 8 case Tiktik => 9 case Crawlid => 10 case Gruzzer => 11
    case AspidHunter => 12 case Vengefly => 13 case Goam => 14 case AspidMother => 15
    case Baldur => 16 case ElderBaldur => 17 case BroodingMawlek => 18 case Mosscreep => 19
    case Mosskin => 20 case VolatileMosskin => 21 case FoolEater => 22 case Squit => 23
    case Obble => 24 case Durandoo => 25 case Gulka => 26 case Duranda => 27
    case MossKnight => 28 case BattleGate => 29 case MantisLord => 30
    case MantisLordS1 => 31 case MantisLordS2 => 32
  }

  /** Two different types never share a byte, so a byte names at most one type. */
  lemma CodeInjective(s: EntityType, t: EntityType)
    ensures Code(s) == Code(t) ==> s == t
  {
  }

  /** Every byte that names a member is that member's byte. */
  lemma CastRoundTrip(b: byte)
    requires b < TypeCount
    ensures Code(TypeOf(b).value) == b
  {
  }

  // ---------------------------------------------------------------------------
  // InstantiateEntity

  /** One test of the chain: the name must contain `pattern` (and must not contain
      `unless`, when given); the id is read from the name with `strip` removed. */
  datatype Rule = Rule(pattern: string, unless: Option<string>, strip: string, kind: EntityType)

  /** How many rules the chain has. */
  const RuleCount := 29

  /** Rule `k` of the chain, in the order InstantiateEntity tests them. Two `strip`
      strings differ from their pattern: "Barger" and "PlantTurret". */
  function RuleAt(k: nat): (r: Rule)
    requires k < RuleCount
    ensures |r.strip| > 0
  {
    match k
    case 0 => Rule("Giant Fly", None, "Giant Fly", GruzMother)
    case 1 => Rule("False Knight New", None, "False Knight New", FalseKnight)
    case 2 => Rule("Mega Moss Charger", None, "Mega Moss Charger", MossCharger)
    case 3 => Rule("Zombie Runner", None, "Zombie Runner", WanderingHusk)
    case 4 => Rule("Zombie Barger", None, "Barger", HuskBully)
    case 5 => Rule("Zombie Leaper", None, "Zombie Leaper", LeapingHusk)
    case 6 => Rule("Zombie Hornhead", None, "Zombie Hornhead", HuskHornhead)
    case 7 => Rule("Zombie Shield", None, "Zombie Shield", HuskWarrior)
    case 8 => Rule("Zombie Guard", None, "Zombie Guard", HuskGuard)
    case 9 => Rule("Climber", None, "Climber", Tiktik)
    case 10 => Rule("Crawler", None, "Crawler", Crawlid)
    case 11 => Rule("Fly", None, "Fly", Gruzzer)
    case 12 => Rule("Spitter", None, "Spitter", AspidHunter)
    case 13 => Rule("Buzzer", None, "Buzzer", Vengefly)
    case 14 => Rule("Worm", None, "Worm", Goam)
    case 15 => Rule("Hatcher", Some("Baby Spawner"), "Hatcher", AspidMother)
    case 16 => Rule("Roller", None, "Roller", Baldur)
    case 17 => Rule("Blocker", None, "Blocker", ElderBaldur)
    case 18 => Rule("Mawlek Body", None, "Mawlek Body", BroodingMawlek)
    case 19 => Rule("Moss Walker", None, "Moss Walker", Mosscreep)
    case 20 => Rule("Mossman_Runner", None, "Mossman_Runner", Mosskin)
    case 21 => Rule("Mossman_Shaker", None, "Mossman_Shaker", VolatileMosskin)
    case 22 => Rule("Plant Trap", None, "Plant Trap", FoolEater)
    case 23 => Rule("Mosquito", None, "Mosquito", Squit)
    case 24 => Rule("Fat Fly", None, "Fat Fly", Obble)
    case 25 => Rule("Acid Walker", None, "Acid Walker", Durandoo)
    case 26 => Rule("Plant Turret", None, "PlantTurret", Gulka)
    case 27 => Rule("Acid Flyer", None, "Acid Flyer", Duranda)
    case _ => Rule("Moss Knight", None, "Moss Knight", MossKnight)
  }

  predicate Matches(rule: Rule, name: string)
  {
    Contains(name, rule.pattern) && (rule.unless.None? || !Contains(name, rule.unless.value))
  }

  /** The first rule from position `k` on that matches `name`. */
  function FirstMatch(name: string, k: nat): (r: Option<nat>)
    requires k <= RuleCount
    decreases RuleCount - k
    ensures r.Some? ==> k <= r.value < RuleCount && Matches(RuleAt(r.value), name)
    ensures r.Some? ==> forall j :: k <= j < r.value ==> !Matches(RuleAt(j), name)
    ensures r.None? ==> forall j :: k <= j < RuleCount ==> !Matches(RuleAt(j), name)
  {
    if k == RuleCount then None
    else if Matches(RuleAt(k), name) then Some(k)
    else FirstMatch(name, k + 1)
  }

  /** InstantiateEntity: the type and id of the first matching rule, or nothing when
      no rule matches. */
  function Instantiate(name: string): (r: Option<(EntityType, byte)>)
    ensures r.None? <==> forall j :: 0 <= j < RuleCount ==> !Matches(RuleAt(j), name)
    ensures r.Some? ==> exists j :: IsFirstMatch(name, j) && r.value == Outcome(name, j)
  {
    match FirstMatch(name, 0)
    case None => None
    case Some(j) =>
      assert IsFirstMatch(name, j);
      Some(Outcome(name, j))
  }

  /** Rule `j` matches `name` and no earlier rule does. */
  predicate IsFirstMatch(name: string, j: nat)
  {
    j < RuleCount && Matches(RuleAt(j), name) && forall i :: 0 <= i < j ==> !Matches(RuleAt(i), name)
  }

  /** The type and id that rule `j` gives `name`. */
  function Outcome(name: string, j: nat): (EntityType, byte)
    requires j < RuleCount
  {
    (RuleAt(j).kind, GetEnemyId(RemoveAll(name, RuleAt(j).strip)))
  }

  /** Rules that are skipped do not change which rule matches first. */
  lemma {:induction false} SkipNonMatching(name: string, k: nat, m: nat)
    requires k <= m <= RuleCount
    requires forall j :: k <= j < m ==> !Matches(RuleAt(j), name)
    ensures FirstMatch(name, k) == FirstMatch(name, m)
    decreases m - k
  {
    if k < m {
      SkipNonMatching(name, k + 1, m);
    }
  }

  /** Where the rules for AspidMother, Obble and Duranda sit in the chain. */
  lemma KindPositions(k: nat)
    requires k < RuleCount
    ensures RuleAt(k).kind == AspidMother ==> k == 15
    ensures RuleAt(k).kind == Obble ==> k == 24
    ensures RuleAt(k).kind == Duranda ==> k == 27
  {
  }

  /** "Fly" is checked before "Fat Fly" and "Acid Flyer", so no name ever classifies as
      Obble or Duranda: such names become Gruzzer (or an earlier match). */
  lemma FlyShadowsFatFlyAndAcidFlyer(name: string)
    ensures Instantiate(name).Some? ==> Instantiate(name).value.0 !in {Obble, Duranda}
  {
    var m := FirstMatch(name, 0);
    if m.Some? {
      FatFlyAndAcidFlyerNeverFirst(name);
      KindPositions(m.value);
      assert Instantiate(name).value.0 == RuleAt(m.value).kind;
    }
  }

  /** Neither the "Fat Fly" rule nor the "Acid Flyer" rule is ever the first match. */
  lemma FatFlyAndAcidFlyerNeverFirst(name: string)
    ensures FirstMatch(name, 0) != Some(24) && FirstMatch(name, 0) != Some(27)
  {
    NeverFirstAfterFly(name, 24, "Fat Fly");
    NeverFirstAfterFly(name, 27, "Acid Flyer");
  }

  /** A rule after the "Fly" rule whose pattern contains "Fly" is never the first match. */
  lemma NeverFirstAfterFly(name: string, k: nat, longer: string)
    requires (k == 24 && longer == "Fat Fly") || (k == 27 && longer == "Acid Flyer")
    ensures FirstMatch(name, 0) != Some(k)
  {
    if FirstMatch(name, 0) == Some(k) {
      assert Contains(name, longer);
      LongerFlyNamesContainFly(name);
      FlyCaughtByRuleEleven(name);
      assert false;
    }
  }

  /** The types of the rules up to and including the generic "Fly" rule. */
  lemma KindsUpToFly(j: nat)
    requires j <= 11
    ensures RuleAt(j).kind in {GruzMother, FalseKnight, MossCharger, WanderingHusk, HuskBully,
      LeapingHusk, HuskHornhead, HuskWarrior, HuskGuard, Tiktik, Crawlid, Gruzzer}
  {
  }

  /** A name containing "Fly" is caught by the "Fly" rule or by an earlier one. */
  lemma FlyCaughtByRuleEleven(name: string)
    requires Contains(name, "Fly")
    ensures FirstMatch(name, 0).Some? && FirstMatch(name, 0).value <= 11
  {
    assert Matches(RuleAt(11), name);
  }

  /** "Fat Fly" and "Acid Flyer" both contain "Fly". */
  lemma LongerFlyNamesContainFly(name: string)
    requires Contains(name, "Fat Fly") || Contains(name, "Acid Flyer")
    ensures Contains(name, "Fly")
  {
    if Contains(name, "Fat Fly") {
      ContainsAt("Fat Fly", "Fly", 4);
      ContainsTransitive(name, "Fat Fly", "Fly");
    } else {
      ContainsAt("Acid Flyer", "Fly", 5);
      ContainsTransitive(name, "Acid Flyer", "Fly");
    }
  }

  /** A "Fat Fly" or "Acid Flyer" name is always classified, as Gruzzer unless one of
      the rules before "Fly" catches it first. */
  lemma FlyNamesClassifyAsGruzzer(name: string)
    requires Contains(name, "Fat Fly") || Contains(name, "Acid Flyer")
    ensures Instantiate(name).Some?
    ensures Instantiate(name).value.0 in {GruzMother, FalseKnight, MossCharger, WanderingHusk,
      HuskBully, LeapingHusk, HuskHornhead, HuskWarrior, HuskGuard, Tiktik, Crawlid, Gruzzer}
  {
    LongerFlyNamesContainFly(name);
    FlyCaughtByRuleEleven(name);
    var j := FirstMatch(name, 0).value;
    InstantiateAt(name, j);
    KindsUpToFly(j);
  }

  /** "Giant Fly" is checked first, so it always wins over the generic "Fly". */
  lemma GiantFlyIsGruzMother(name: string)
    requires Contains(name, "Giant Fly")
    ensures Instantiate(name) == Some((GruzMother, GetEnemyId(RemoveAll(name, "Giant Fly"))))
  {
    assert FirstMatch(name, 0) == Some(0);
  }

  /** A name classifies as AspidMother only when it contains "Hatcher" and does not
      contain "Baby Spawner". */
  lemma HatcherNeedsNoBabySpawner(name: string)
    requires Instantiate(name).Some? && Instantiate(name).value.0 == AspidMother
    ensures Contains(name, "Hatcher") && !Contains(name, "Baby Spawner")
  {
    var j := FirstMatch(name, 0).value;
    assert Instantiate(name).value.0 == RuleAt(j).kind;
    KindPositions(j);
    HatcherRule(name);
  }

  lemma HatcherRule(name: string)
    requires Matches(RuleAt(15), name)
    ensures Contains(name, "Hatcher") && !Contains(name, "Baby Spawner")
  {
  }

  /** A name that starts with "Crawler" and lacks the letters that open or mark the
      nine earlier patterns ('G', 'F', 'M', 'Z' and the 'i' of "Climber") is caught
      by the "Crawler" rule. */
  lemma CrawlerIsTenth(name: string)
    requires StartsWith(name, "Crawler")
    requires 'G' !in name && 'F' !in name && 'M' !in name && 'Z' !in name && 'i' !in name
    ensures FirstMatch(name, 0) == Some(10)
  {
    assert !Matches(RuleAt(0), name) by { MissingChar(name, "Giant Fly", 0); }
    assert !Matches(RuleAt(1), name) by { MissingChar(name, "False Knight New", 0); }
    assert !Matches(RuleAt(2), name) by { MissingChar(name, "Mega Moss Charger", 0); }
    assert !Matches(RuleAt(3), name) by { MissingChar(name, "Zombie Runner", 0); }
    assert !Matches(RuleAt(4), name) by { MissingChar(name, "Zombie Barger", 0); }
    assert !Matches(RuleAt(5), name) by { MissingChar(name, "Zombie Leaper", 0); }
    assert !Matches(RuleAt(6), name) by { MissingChar(name, "Zombie Hornhead", 0); }
    assert !Matches(RuleAt(7), name) by { MissingChar(name, "Zombie Shield", 0); }
    assert !Matches(RuleAt(8), name) by { MissingChar(name, "Zombie Guard", 0); }
    assert !Matches(RuleAt(9), name) by { MissingChar(name, "Climber", 2); }
    SkipNonMatching(name, 0, 10);
    assert Matches(RuleAt(10), name) by { ContainsAt(name, "Crawler", 0); }
  }

  /** The outcome of classification once the first matching rule is known. */
  lemma InstantiateAt(name: string, j: nat)
    requires FirstMatch(name, 0) == Some(j)
    ensures j < RuleCount
    ensures Instantiate(name) == Some((RuleAt(j).kind, GetEnemyId(RemoveAll(name, RuleAt(j).strip))))
  {
  }

  /** Removing "Crawler" from "Crawler" followed by text without a 'C' leaves that text. */
  lemma StripCrawler(tail: string)
    requires 'C' !in tail
    ensures RemoveAll("Crawler" + tail, "Crawler") == tail
  {
    RemovePrefix("Crawler", tail);
    MissingChar(tail, "Crawler", 0);
  }

  /** "Crawler (d)" for a string of digits d is caught by the "Crawler" rule. */
  lemma CrawlerCopyIsTenth(d: string)
    requires AllDigits(d)
    ensures FirstMatch("Crawler (" + d + ")", 0) == Some(10)
  {
    var name := "Crawler (" + d + ")";
    NotInDigits(d, 'G');
    NotInDigits(d, 'F');
    NotInDigits(d, 'M');
    NotInDigits(d, 'Z');
    NotInDigits(d, 'i');
    assert StartsWith(name, "Crawler");
    CrawlerIsTenth(name);
  }

  /** Removing "Crawler" from "Crawler (d)" leaves " (d)". */
  lemma CrawlerCopyStrip(d: string)
    requires AllDigits(d)
    ensures RemoveAll("Crawler (" + d + ")", "Crawler") == " (" + d + ")"
  {
    NotInDigits(d, 'C');
    assert "Crawler (" + d + ")" == "Crawler" + (" (" + d + ")");
    StripCrawler(" (" + d + ")");
  }

  /** Copies of Crawlid round-trip: "Crawler (n)" registers as Crawlid with id n. */
  lemma CrawlerRoundTrip(n: nat)
    requires n < 256
    ensures Instantiate("Crawler (" + Decimal(n) + ")") == Some((Crawlid, n))
  {
    var d := Decimal(n);
    CrawlerCopyIsTenth(d);
    CrawlerCopyStrip(d);
    ParenthesisedId(n);
    CrawlerOutcome("Crawler (" + d + ")", " (" + d + ")");
  }

  /** Rule 10 is the "Crawler" rule. */
  lemma CrawlerRule()
    ensures RuleAt(10).kind == Crawlid && RuleAt(10).strip == "Crawler"
  {
  }

  /** A name caught by the "Crawler" rule registers as Crawlid, with the id read from
      what is left once "Crawler" is removed. */
  lemma CrawlerOutcome(name: string, rest: string)
    requires FirstMatch(name, 0) == Some(10)
    requires RemoveAll(name, "Crawler") == rest
    ensures Instantiate(name) == Some((Crawlid, GetEnemyId(rest)))
  {
    InstantiateAt(name, 10);
    CrawlerRule();
  }

  /** A bare "Crawler" registers as Crawlid with id 0. */
  lemma BareCrawler()
    ensures Instantiate("Crawler") == Some((Crawlid, 0))
  {
    assert StartsWith("Crawler", "Crawler");
    CrawlerIsTenth("Crawler");
    StripCrawler("");
    assert "Crawler" + "" == "Crawler";
    CrawlerOutcome("Crawler", "");
    assert NoDigit("");
  }
}
