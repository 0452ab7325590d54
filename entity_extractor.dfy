/**
  Entity and relationship extraction from memory transcripts
  (claude-memory-system/hooks/entity_extractor.py).

  Seven pattern families find typed entities; each family's regular
  expressions are an abstract matcher `Finder` that returns the matches of
  one pattern in a text, in order. What the extractor does with a match
  (which group is the name, how it is trimmed, the confidence and the
  context window) is modelled as written.
*/
module EntityExtractor {
  import opened Support
  import opened MemoryRecords

  datatype EntityType = File | Function | Class | Bug | Feature | Decision | Tool

  datatype Entity = Entity(entityType: EntityType, name: string, context: string, confidence: real)

  datatype RelationType = Modifies | Fixes | Uses | Implements

  datatype Relationship = Relationship(source: string, relationType: RelationType, target: string, confidence: real)

  /**
    One match of a pattern: `start()`/`end()` and the text of the capturing
    groups that took part (group 1 first). An empty `groups` is a match
    whose `lastindex` is `None`.
  */
  datatype RegexMatch = RegexMatch(start: nat, end: nat, groups: seq<string>)

  /** Pattern `index` of a family's pattern list. */
  datatype PatternId = PatternId(family: EntityType, index: nat)

  /** `re.finditer(pattern, text)`, with the flags each family passes. */
  type Finder = (PatternId, string) -> seq<RegexMatch>

  /** The order in which `extract_entities` runs the families. */
  const Families: seq<EntityType> := [File, Function, Class, Bug, Feature, Decision, Tool]

  function Rank(t: EntityType): nat
  {
    match t
    case File => 0 case Function => 1 case Class => 2 case Bug => 3
    case Feature => 4 case Decision => 5 case Tool => 6
  }

  /** Number of patterns in each family's list. */
  function PatternCount(t: EntityType): nat
  {
    match t
    case File => 3 case Function => 3 case Class => 2 case Bug => 3
    case Feature => 4 case Decision => 2 case Tool => 2
  }

  ghost predicate IsPattern(p: PatternId)
  {
    p.index < PatternCount(p.family)
  }

  function Confidence(t: EntityType): real
  {
    match t
    case File => 0.9 case Function => 0.8 case Class => 0.85 case Bug => 0.75
    case Feature => 0.7 case Decision => 0.8 case Tool => 0.9
  }

  /** Characters of context kept on each side of a match. */
  function Window(t: EntityType): nat
  {
    match t
    case File => 50 case Function => 30 case Class => 30 case Bug => 40
    case Feature => 40 case Decision => 30 case Tool => 20
  }

  /** `match.group(k)`; a group that did not take part reads as "". */
  function Group(text: string, m: RegexMatch, k: nat): string
  {
    if k == 0 then PySlice(text, m.start, m.end)
    else if k <= |m.groups| then m.groups[k - 1]
    else ""
  }

  function IsBacktick(c: char): bool { c == '`' }

  /**
    The entity name a match yields. Every FILE pattern has two '(' so the
    name is group 1; the FUNCTION pattern `def|function|const...` (index 1)
    names group 2; BUG and DECISION keep the whole match cut to 100.
  */
  function NameOf(text: string, p: PatternId, m: RegexMatch): string
  {
    match p.family
    case File => Strip(Group(text, m, 1), IsBacktick)
    case Function => Strip(Group(text, m, if p.index == 1 then 2 else 1), IsBacktick)
    case Class => Group(text, m, 1)
    case Bug => Take(Group(text, m, 0), 100)
    case Feature => Strip(if |m.groups| > 0 then Group(text, m, 1) else Group(text, m, 0), IsSpace)
    case Decision => Take(Group(text, m, 0), 100)
    case Tool => Strip(if |m.groups| > 0 then Group(text, m, 1) else Group(text, m, 0), IsBacktick)
  }

  /** `text[max(0, start - w) : min(len(text), end + w)]`. */
  function ContextOf(text: string, w: nat, m: RegexMatch): (r: string)
    ensures IsSlice(r, text)
    ensures m.start <= m.end ==> |r| <= m.end - m.start + 2 * w
  {
    var lo := if m.start >= w then m.start - w else 0;
    var hi := if m.end + w <= |text| then m.end + w else |text|;
    PySlice(text, lo, hi)
  }

  function MakeEntity(text: string, p: PatternId, m: RegexMatch): (e: Entity)
    ensures e.entityType == p.family && e.confidence == Confidence(p.family)
    ensures 0.0 <= e.confidence <= 1.0
    ensures IsSlice(e.context, text)
    ensures m.start <= m.end ==> |e.context| <= m.end - m.start + 2 * Window(p.family)
    ensures p.family in {Bug, Decision} ==> |e.name| <= 100 && e.name == Take(PySlice(text, m.start, m.end), 100)
  {
    Entity(p.family, NameOf(text, p, m), ContextOf(text, Window(p.family), m), Confidence(p.family))
  }

  // ---------------------------------------------------------------------
  // extract_entities
  // ---------------------------------------------------------------------

  function MatchEntities(text: string, p: PatternId, ms: seq<RegexMatch>): seq<Entity>
    decreases |ms|
  {
    if ms == [] then [] else MatchEntities(text, p, Init(ms)) + [MakeEntity(text, p, Last(ms))]
  }

  /** The entities of the first `n` patterns of family `t`. */
  function PatternEntities(text: string, find: Finder, t: EntityType, n: nat): seq<Entity>
  {
    if n == 0 then []
    else PatternEntities(text, find, t, n - 1) + MatchEntities(text, PatternId(t, n - 1), find(PatternId(t, n - 1), text))
  }

  function FamiliesEntities(text: string, find: Finder, fams: seq<EntityType>): seq<Entity>
    decreases |fams|
  {
    if fams == [] then []
    else FamiliesEntities(text, find, Init(fams)) + PatternEntities(text, find, Last(fams), PatternCount(Last(fams)))
  }

  /** What `extract_entities(text)` returns. */
  function Entities(text: string, find: Finder): seq<Entity>
  {
    FamiliesEntities(text, find, Families)
  }

  /** `EntityExtractor.extract_entities`: every family, every pattern, every match, in order. */
  method ExtractEntities(text: string, find: Finder) returns (entities: seq<Entity>)
    ensures entities == Entities(text, find)
  {
    entities := [];
    var f := 0;
    while f < |Families|
      invariant 0 <= f <= |Families|
      invariant entities == FamiliesEntities(text, find, Families[..f])
    {
      var t := Families[f];
      var family: seq<Entity> := [];
      var p := 0;
      while p < PatternCount(t)
        invariant 0 <= p <= PatternCount(t)
        invariant family == PatternEntities(text, find, t, p)
      {
        var found := MatchesToEntities(text, PatternId(t, p), find(PatternId(t, p), text));
        assert PatternEntities(text, find, t, p + 1) == PatternEntities(text, find, t, p) + found;
        family := family + found;
        p := p + 1;
      }
      assert Init(Families[..f + 1]) == Families[..f] && Last(Families[..f + 1]) == t;
      assert FamiliesEntities(text, find, Families[..f + 1]) == FamiliesEntities(text, find, Families[..f]) + family;
      entities := entities + family;
      f := f + 1;
    }
    assert Families[..f] == Families;
  }

  /** The innermost loop of `extract_entities`: one entity per match of one pattern, in match order. */
  method MatchesToEntities(text: string, p: PatternId, ms: seq<RegexMatch>) returns (found: seq<Entity>)
    ensures found == MatchEntities(text, p, ms)
  {
    found := [];
    var k := 0;
    while k < |ms|
      invariant 0 <= k <= |ms|
      invariant found == MatchEntities(text, p, ms[..k])
    {
      assert Init(ms[..k + 1]) == ms[..k] && Last(ms[..k + 1]) == ms[k];
      found := found + [MakeEntity(text, p, ms[k])];
      k := k + 1;
    }
    assert ms[..k] == ms;
  }

  lemma {:induction false} MatchEntitiesMembers(text: string, p: PatternId, ms: seq<RegexMatch>)
    ensures forall e :: e in MatchEntities(text, p, ms) <==> exists m :: m in ms && e == MakeEntity(text, p, m)
    decreases |ms|
  {
    if ms != [] {
      MatchEntitiesMembers(text, p, Init(ms));
      InitLast(ms);
    }
  }

  lemma {:induction false} PatternEntitiesMembers(text: string, find: Finder, t: EntityType, n: nat)
    ensures forall e :: e in PatternEntities(text, find, t, n) <==>
      exists i, m :: 0 <= i < n && m in find(PatternId(t, i), text) && e == MakeEntity(text, PatternId(t, i), m)
  {
    if n > 0 {
      PatternEntitiesMembers(text, find, t, n - 1);
      MatchEntitiesMembers(text, PatternId(t, n - 1), find(PatternId(t, n - 1), text));
    }
  }

  lemma {:induction false} FamiliesEntitiesMembers(text: string, find: Finder, fams: seq<EntityType>)
    ensures forall e :: e in FamiliesEntities(text, find, fams) <==>
      exists p: PatternId, m :: p.family in fams && IsPattern(p) && m in find(p, text) && e == MakeEntity(text, p, m)
    decreases |fams|
  {
    if fams != [] {
      FamiliesEntitiesMembers(text, find, Init(fams));
      var t := Last(fams);
      PatternEntitiesMembers(text, find, t, PatternCount(t));
      InitLast(fams);
      forall e ensures e in FamiliesEntities(text, find, fams) <==>
        exists p: PatternId, m :: p.family in fams && IsPattern(p) && m in find(p, text) && e == MakeEntity(text, p, m)
      {
        if e in FamiliesEntities(text, find, fams) && e !in FamiliesEntities(text, find, Init(fams)) {
          var i, m :| 0 <= i < PatternCount(t) && m in find(PatternId(t, i), text) && e == MakeEntity(text, PatternId(t, i), m);
          assert IsPattern(PatternId(t, i));
        }
        if exists p: PatternId, m :: p.family in fams && IsPattern(p) && m in find(p, text) && e == MakeEntity(text, p, m) {
          var p: PatternId, m :| p.family in fams && IsPattern(p) && m in find(p, text) && e == MakeEntity(text, p, m);
          if p.family !in Init(fams) {
            assert p == PatternId(t, p.index);
          }
        }
      }
    }
  }

  /**
    An entity is extracted exactly when some pattern of some family matches
    and the entity is what that match yields; so every entity has its
    family's fixed confidence and a context that is a slice of the text.
  */
  lemma EntitiesAreMatches(text: string, find: Finder)
    ensures forall e :: e in Entities(text, find) <==>
      exists p, m :: IsPattern(p) && m in find(p, text) && e == MakeEntity(text, p, m)
    ensures forall e :: e in Entities(text, find) ==>
      e.confidence == Confidence(e.entityType) && 0.0 <= e.confidence <= 1.0 && IsSlice(e.context, text)
  {
    FamiliesEntitiesMembers(text, find, Families);
    forall t: EntityType ensures t in Families {
      assert Families[Rank(t)] == t;
    }
  }

  lemma {:induction false} NoMatchFamilies(text: string, find: Finder, fams: seq<EntityType>)
    requires forall p :: IsPattern(p) ==> find(p, text) == []
    ensures FamiliesEntities(text, find, fams) == []
    decreases |fams|
  {
    if fams != [] {
      NoMatchFamilies(text, find, Init(fams));
      NoMatchPatterns(text, find, Last(fams), PatternCount(Last(fams)));
    }
  }

  lemma {:induction false} NoMatchPatterns(text: string, find: Finder, t: EntityType, n: nat)
    requires n <= PatternCount(t)
    requires forall p :: IsPattern(p) ==> find(p, text) == []
    ensures PatternEntities(text, find, t, n) == []
  {
    if n > 0 {
      NoMatchPatterns(text, find, t, n - 1);
      assert IsPattern(PatternId(t, n - 1));
    }
  }

  /** Text on which no pattern matches (such as "") yields no entities. */
  lemma NoMatchNoEntities(text: string, find: Finder)
    requires forall p :: IsPattern(p) ==> find(p, text) == []
    ensures Entities(text, find) == []
  {
    NoMatchFamilies(text, find, Families);
  }

  lemma {:induction false} MatchEntitiesTyped(text: string, p: PatternId, ms: seq<RegexMatch>)
    ensures forall e :: e in MatchEntities(text, p, ms) ==> e.entityType == p.family
  {
    MatchEntitiesMembers(text, p, ms);
  }

  lemma {:induction false} PatternEntitiesTyped(text: string, find: Finder, t: EntityType, n: nat)
    ensures forall e :: e in PatternEntities(text, find, t, n) ==> e.entityType == t
  {
    PatternEntitiesMembers(text, find, t, n);
  }

  ghost predicate InFamilyOrder(es: seq<Entity>)
  {
    forall i, j :: 0 <= i < j < |es| ==> Rank(es[i].entityType) <= Rank(es[j].entityType)
  }

  lemma {:induction false} FamiliesEntitiesOrdered(text: string, find: Finder, f: nat)
    requires f <= |Families|
    ensures InFamilyOrder(FamiliesEntities(text, find, Families[..f]))
    ensures forall e :: e in FamiliesEntities(text, find, Families[..f]) ==> Rank(e.entityType) < f
  {
    if f > 0 {
      FamiliesEntitiesOrdered(text, find, f - 1);
      assert Init(Families[..f]) == Families[..f - 1];
      var t := Families[f - 1];
      assert Rank(t) == f - 1;
      var a := FamiliesEntities(text, find, Families[..f - 1]);
      var b := PatternEntities(text, find, t, PatternCount(t));
      PatternEntitiesTyped(text, find, t, PatternCount(t));
      var s := a + b;
      forall i, j | 0 <= i < j < |s| ensures Rank(s[i].entityType) <= Rank(s[j].entityType) {
        if i < |a| && j >= |a| {
          assert s[i] in a && s[j] in b;
        } else if i >= |a| {
          assert s[i] in b && s[j] in b;
        }
      }
    }
  }

  /** Entities come out grouped by family: FILE, FUNCTION, CLASS, BUG, FEATURE, DECISION, TOOL. */
  lemma EntitiesInFamilyOrder(text: string, find: Finder)
    ensures InFamilyOrder(Entities(text, find))
  {
    FamiliesEntitiesOrdered(text, find, |Families|);
    assert Families[..|Families|] == Families;
  }

  // ---------------------------------------------------------------------
  // extract_relationships
  // ---------------------------------------------------------------------

  /** The order in which `extract_relationships` runs its four passes. */
  const RelationKinds: seq<RelationType> := [Modifies, Fixes, Uses, Implements]

  function RelationConfidence(k: RelationType): real
  {
    match k
    case Modifies => 0.7 case Fixes => 0.6 case Uses => 0.8 case Implements => 0.65
  }

  /** Whether pass `k`, on outer entity `e` and inner entity `o`, emits a relationship. */
  predicate Fires(k: RelationType, e: Entity, o: Entity)
  {
    match k
    case Modifies => e.entityType == File && o.entityType in {Feature, Function} && Contains(o.context, e.name)
    case Fixes => e.entityType == Bug && o.entityType == Feature &&
                  (Contains(o.context, Take(e.name, 30)) || Contains(e.context, o.name))
    case Uses => e.entityType == Tool && o.entityType in {File, Feature, Function} && Contains(o.context, e.name)
    case Implements => e.entityType == Function && o.entityType == Feature &&
                       (Contains(o.context, e.name) || Contains(Lower(e.context), Lower(o.name)))
  }

  /** The relationship pass `k` emits for outer entity `e` and inner entity `o`. */
  function Emit(k: RelationType, e: Entity, o: Entity): Relationship
  {
    match k
    case Modifies => Relationship(o.name, Modifies, e.name, 0.7)
    case Fixes => Relationship(o.name, Fixes, Take(e.name, 50), 0.6)
    case Uses => Relationship(o.name, Uses, e.name, 0.8)
    case Implements => Relationship(e.name, Implements, o.name, 0.65)
  }

  function RowRelationships(k: RelationType, e: Entity, others: seq<Entity>): seq<Relationship>
    decreases |others|
  {
    if others == [] then [] else
    RowRelationships(k, e, Init(others)) + (if Fires(k, e, Last(others)) then [Emit(k, e, Last(others))] else [])
  }

  function PassRelationships(k: RelationType, outer: seq<Entity>, all: seq<Entity>): seq<Relationship>
    decreases |outer|
  {
    if outer == [] then [] else
    PassRelationships(k, Init(outer), all) + RowRelationships(k, Last(outer), all)
  }

  function KindsRelationships(kinds: seq<RelationType>, es: seq<Entity>): seq<Relationship>
    decreases |kinds|
  {
    if kinds == [] then [] else
    KindsRelationships(Init(kinds), es) + PassRelationships(Last(kinds), es, es)
  }

  /** What `extract_relationships(text, entities)` returns. */
  function Relationships(es: seq<Entity>): seq<Relationship>
  {
    KindsRelationships(RelationKinds, es)
  }

  /**
    `EntityExtractor.extract_relationships`: four passes over every ordered
    pair of entities. The text argument is not read, and neither is the
    name-to-entity map the source builds.
  */
  method ExtractRelationships(text: string, entities: seq<Entity>) returns (relationships: seq<Relationship>)
    ensures relationships == Relationships(entities)
  {
    relationships := [];
    var q := 0;
    while q < |RelationKinds|
      invariant 0 <= q <= |RelationKinds|
      invariant relationships == KindsRelationships(RelationKinds[..q], entities)
    {
      var k := RelationKinds[q];
      var pass: seq<Relationship> := [];
      var i := 0;
      while i < |entities|
        invariant 0 <= i <= |entities|
        invariant pass == PassRelationships(k, entities[..i], entities)
      {
        var e := entities[i];
        var row: seq<Relationship> := [];
        var j := 0;
        while j < |entities|
          invariant 0 <= j <= |entities|
          invariant row == RowRelationships(k, e, entities[..j])
        {
          assert Init(entities[..j + 1]) == entities[..j];
          if Fires(k, e, entities[j]) {
            row := row + [Emit(k, e, entities[j])];
          }
          j := j + 1;
        }
        assert entities[..j] == entities;
        assert Init(entities[..i + 1]) == entities[..i];
        pass := pass + row;
        i := i + 1;
      }
      assert entities[..i] == entities;
      assert Init(RelationKinds[..q + 1]) == RelationKinds[..q];
      relationships := relationships + pass;
      q := q + 1;
    }
    assert RelationKinds[..q] == RelationKinds;
  }

  lemma {:induction false} RowMembers(k: RelationType, e: Entity, others: seq<Entity>)
    ensures forall r :: r in RowRelationships(k, e, others) <==> exists o :: o in others && Fires(k, e, o) && r == Emit(k, e, o)
    decreases |others|
  {
    if others != [] {
      var last := Last(others);
      var tail := if Fires(k, e, last) then [Emit(k, e, last)] else [];
      assert RowRelationships(k, e, others) == RowRelationships(k, e, Init(others)) + tail;
      RowMembers(k, e, Init(others));
      InitLast(others);
      forall r ensures r in RowRelationships(k, e, others) <==> exists o :: o in others && Fires(k, e, o) && r == Emit(k, e, o) {
        if r in RowRelationships(k, e, Init(others)) {
          var o :| o in Init(others) && Fires(k, e, o) && r == Emit(k, e, o);
          assert o in others;
        } else if r in tail {
          assert last in others;
        }
        if exists o :: o in others && Fires(k, e, o) && r == Emit(k, e, o) {
          var o :| o in others && Fires(k, e, o) && r == Emit(k, e, o);
          if o != last {
            assert o in Init(others);
          }
        }
      }
    }
  }

  lemma {:induction false} PassMembers(k: RelationType, outer: seq<Entity>, all: seq<Entity>)
    ensures forall r :: r in PassRelationships(k, outer, all) <==>
      exists e, o :: e in outer && o in all && Fires(k, e, o) && r == Emit(k, e, o)
    decreases |outer|
  {
    if outer != [] {
      PassMembers(k, Init(outer), all);
      RowMembers(k, Last(outer), all);
      InitLast(outer);
      forall r ensures r in PassRelationships(k, outer, all) <==>
        exists e, o :: e in outer && o in all && Fires(k, e, o) && r == Emit(k, e, o)
      {
        if r in RowRelationships(k, Last(outer), all) {
          var o :| o in all && Fires(k, Last(outer), o) && r == Emit(k, Last(outer), o);
        }
        if exists e, o :: e in outer && o in all && Fires(k, e, o) && r == Emit(k, e, o) {
          var e, o :| e in outer && o in all && Fires(k, e, o) && r == Emit(k, e, o);
          if e !in Init(outer) {
            assert e == Last(outer);
          }
        }
      }
    }
  }

  lemma {:induction false} KindsMembers(kinds: seq<RelationType>, es: seq<Entity>)
    ensures forall r :: r in KindsRelationships(kinds, es) <==>
      exists k, e, o :: k in kinds && e in es && o in es && Fires(k, e, o) && r == Emit(k, e, o)
    decreases |kinds|
  {
    if kinds != [] {
      KindsMembers(Init(kinds), es);
      PassMembers(Last(kinds), es, es);
      InitLast(kinds);
      forall r ensures r in KindsRelationships(kinds, es) <==>
        exists k, e, o :: k in kinds && e in es && o in es && Fires(k, e, o) && r == Emit(k, e, o)
      {
        if r in PassRelationships(Last(kinds), es, es) {
          var e, o :| e in es && o in es && Fires(Last(kinds), e, o) && r == Emit(Last(kinds), e, o);
          assert Last(kinds) in kinds;
        }
        if exists k, e, o :: k in kinds && e in es && o in es && Fires(k, e, o) && r == Emit(k, e, o) {
          var k, e, o :| k in kinds && e in es && o in es && Fires(k, e, o) && r == Emit(k, e, o);
          if k !in Init(kinds) {
            assert k == Last(kinds);
          }
        }
      }
    }
  }

  /**
    A relationship is emitted exactly when one of the four rules fires on a
    pair of the given entities; its kind fixes its confidence, its
    endpoints are entity names (the FIXES target cut to 50 characters).
  */
  lemma RelationshipsAreRules(es: seq<Entity>)
    ensures forall r :: r in Relationships(es) <==>
      exists k, e, o :: e in es && o in es && Fires(k, e, o) && r == Emit(k, e, o)
    ensures forall r :: r in Relationships(es) ==>
      r.confidence == RelationConfidence(r.relationType) &&
      (exists o :: o in es && (r.source == o.name || r.target == o.name)) &&
      (r.relationType != Fixes ==> exists a, b :: a in es && b in es && r.source == a.name && r.target == b.name)
    ensures forall r :: r in Relationships(es) && r.relationType == Fixes ==>
      exists a, b :: a in es && b in es && a.entityType == Feature && b.entityType == Bug &&
        r.source == a.name && r.target == Take(b.name, 50)
  {
    KindsMembers(RelationKinds, es);
    forall k: RelationType ensures k in RelationKinds {
      assert k == RelationKinds[0] || k == RelationKinds[1] || k == RelationKinds[2] || k == RelationKinds[3];
    }
    forall r | r in Relationships(es)
      ensures r.confidence == RelationConfidence(r.relationType)
      ensures exists o :: o in es && (r.source == o.name || r.target == o.name)
      ensures r.relationType != Fixes ==> exists a, b :: a in es && b in es && r.source == a.name && r.target == b.name
      ensures r.relationType == Fixes ==>
        exists a, b :: a in es && b in es && a.entityType == Feature && b.entityType == Bug &&
          r.source == a.name && r.target == Take(b.name, 50)
    {
      var k, e, o :| e in es && o in es && Fires(k, e, o) && r == Emit(k, e, o);
      if k == Implements {
        assert r.source == e.name && r.target == o.name;
      } else {
        assert r.source == o.name;
      }
    }
  }

  /** No entities, no relationships. */
  lemma {:induction false} NoEntitiesNoRelationships(kinds: seq<RelationType>)
    ensures KindsRelationships(kinds, []) == []
    decreases |kinds|
  {
    if kinds != [] {
      NoEntitiesNoRelationships(Init(kinds));
    }
  }

  // ---------------------------------------------------------------------
  // deduplicate_entities and extract_entities_from_memory
  // ---------------------------------------------------------------------

  /** The de-duplication key: the type and the lower-cased name. */
  function EntityKey(e: Entity): (EntityType, string)
  {
    (e.entityType, Lower(e.name))
  }

  /** `EntityExtractor.deduplicate_entities`, with its `seen` set. */
  method DeduplicateEntities(entities: seq<Entity>) returns (unique: seq<Entity>)
    ensures unique == DedupBy(entities, EntityKey)
  {
    var seen: set<(EntityType, string)> := {};
    unique := [];
    var i := 0;
    while i < |entities|
      invariant 0 <= i <= |entities|
      invariant unique == DedupBy(entities[..i], EntityKey)
      invariant seen == KeysOf(unique, EntityKey)
    {
      var e := entities[i];
      assert Init(entities[..i + 1]) == entities[..i];
      var key := EntityKey(e);
      if key !in seen {
        seen := seen + {key};
        KeysOfSnoc(unique, e, EntityKey);
        unique := unique + [e];
      }
      i := i + 1;
    }
    assert entities[..i] == entities;
  }

  /**
    De-duplication keeps one entity per (type, lower-cased name): the first
    one, in input order.
  */
  lemma DedupEntitiesProperties(entities: seq<Entity>)
    ensures forall i, j :: 0 <= i < j < |DedupBy(entities, EntityKey)| ==>
      EntityKey(DedupBy(entities, EntityKey)[i]) != EntityKey(DedupBy(entities, EntityKey)[j])
    ensures KeysOf(DedupBy(entities, EntityKey), EntityKey) == KeysOf(entities, EntityKey)
    ensures forall e :: e in DedupBy(entities, EntityKey) ==> e == FirstWithKey(entities, EntityKey, EntityKey(e))
    ensures Subseq(DedupBy(entities, EntityKey), entities)
  {
    DedupByKeys(entities, EntityKey);
    DedupByKeepsFirst(entities, EntityKey);
    DedupBySubseq(entities, EntityKey);
  }

  /** `f"{doc} {intent} {action} {outcome}"` with missing keys as "". */
  function MemoryText(doc: string, meta: Metadata): string
  {
    doc + " " + GetOr(meta.intent, "") + " " + GetOr(meta.action, "") + " " + GetOr(meta.outcome, "")
  }

  /**
    `extract_entities_from_memory`: the de-duplicated entities of the
    memory's text, and the relationships among those de-duplicated entities.
  */
  function EntitiesFromMemory(doc: string, meta: Metadata, find: Finder): (r: (seq<Entity>, seq<Relationship>))
    ensures forall e :: e in r.0 ==> e in Entities(MemoryText(doc, meta), find)
    ensures forall i, j :: 0 <= i < j < |r.0| ==> EntityKey(r.0[i]) != EntityKey(r.0[j])
    ensures forall x :: x in r.1 <==> exists k, e, o :: e in r.0 && o in r.0 && Fires(k, e, o) && x == Emit(k, e, o)
  {
    var es := DedupBy(Entities(MemoryText(doc, meta), find), EntityKey);
    DedupByKeys(Entities(MemoryText(doc, meta), find), EntityKey);
    DedupBySubseqMembers(Entities(MemoryText(doc, meta), find), EntityKey);
    RelationshipsAreRules(es);
    (es, Relationships(es))
  }

  /** `extract_entities_from_memory`, running the three extractor steps in turn. */
  method ExtractEntitiesFromMemory(doc: string, meta: Metadata, find: Finder)
    returns (entities: seq<Entity>, relationships: seq<Relationship>)
    ensures (entities, relationships) == EntitiesFromMemory(doc, meta, find)
  {
    var text := MemoryText(doc, meta);
    var all := ExtractEntities(text, find);
    entities := DeduplicateEntities(all);
    relationships := ExtractRelationships(text, entities);
  }

  lemma DedupBySubseqMembers<T, K>(s: seq<T>, key: T -> K)
    ensures forall x :: x in DedupBy(s, key) ==> x in s
  {
    DedupByKeepsFirst(s, key);
    forall x | x in DedupBy(s, key) ensures x in s {
      FirstWithKeyIn(s, key, key(x));
    }
  }

  lemma {:induction false} FirstWithKeyIn<T, K>(s: seq<T>, key: T -> K, k: K)
    requires k in KeysOf(s, key)
    ensures FirstWithKey(s, key, k) in s && key(FirstWithKey(s, key, k)) == k
    decreases |s|
  {
    InitLast(s);
    KeysOfSnoc(Init(s), Last(s), key);
    if k in KeysOf(Init(s), key) {
      FirstWithKeyIn(Init(s), key, k);
    }
  }
}
