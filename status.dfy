// The reading statistics a document keeps when status logging is on: how
// many entities were read, ignored or unsupported in each context, in total
// and per entity type.
module Status {
  import opened Results
  import opened EntityTypes

  /** addToEntitiesByType: one more entity of the given type. A null type
      leaves the tally alone; an absent type starts at 1; no other entry
      changes. */
  function AddToEntitiesByType(t: Option<EntityType>, counts: map<EntityType, int>): (r: map<EntityType, int>)
    ensures t.None? ==> r == counts
    ensures t.Some? ==> t.value in r && r[t.value] == (if t.value in counts then counts[t.value] else 0) + 1
    ensures t.Some? ==> forall u :: u != t.value ==>
              (u in r <==> u in counts) && (u in counts ==> r[u] == counts[u])
  {
    if t.None? then counts
    else
      var previous := if t.value in counts then counts[t.value] else 0;
      counts[t.value := previous + 1]
  }

  /** The tally after counting the given types, one call each, from an
      empty map. */
  function TallyOf(ts: seq<EntityType>): map<EntityType, int>
  {
    if ts == [] then map[] else AddToEntitiesByType(Some(ts[|ts| - 1]), TallyOf(ts[..|ts| - 1]))
  }

  /** Counting a sequence of types gives each type its number of
      occurrences, and only the types that occur have an entry. */
  lemma {:induction false} TallyCountsOccurrences(ts: seq<EntityType>, t: EntityType)
    ensures t in TallyOf(ts) <==> t in ts
    ensures t in ts ==> TallyOf(ts)[t] == multiset(ts)[t]
  {
    if ts != [] {
      var init := ts[..|ts| - 1];
      TallyCountsOccurrences(init, t);
      assert ts == init + [ts[|ts| - 1]];
      assert multiset(ts) == multiset(init) + multiset{ts[|ts| - 1]};
    }
  }

  /** The eight contexts the parser counts entities in. */
  datatype Context =
    | BlockContextRead | ModelSpaceRead | PaperSpaceRead
    | BlockContextIgnored | ModelSpaceIgnored | PaperSpaceIgnored
    | UnsupportedBlockContext | UnsupportedModelAndPaperSpace

  /** DxfStatus: eight counters and eight per-type tallies, one pair for
      each context the parser distinguishes. The parser increments the
      counters directly and the tallies through the addTo* methods. */
  class DxfStatus {
    var blockContextRead: int
    var modelSpaceRead: int
    var paperSpaceRead: int
    var blockContextIgnored: int
    var modelSpaceIgnored: int
    var paperSpaceIgnored: int
    var unsupportedBlockContext: int
    var unsupportedModelAndPaperSpace: int

    var blockContextReadByType: map<EntityType, int>
    var modelSpaceReadByType: map<EntityType, int>
    var paperSpaceReadByType: map<EntityType, int>
    var blockContextIgnoredByType: map<EntityType, int>
    var modelSpaceIgnoredByType: map<EntityType, int>
    var paperSpaceIgnoredByType: map<EntityType, int>
    var unsupportedBlockContextByType: map<EntityType, int>
    var unsupportedModelAndPaperSpaceByType: map<EntityType, int>

    /** Every counter starts at 0 and every tally empty. */
    constructor ()
      ensures blockContextRead == modelSpaceRead == paperSpaceRead == 0
      ensures blockContextIgnored == modelSpaceIgnored == paperSpaceIgnored == 0
      ensures unsupportedBlockContext == unsupportedModelAndPaperSpace == 0
      ensures blockContextReadByType == modelSpaceReadByType == paperSpaceReadByType == map[]
      ensures blockContextIgnoredByType == modelSpaceIgnoredByType == paperSpaceIgnoredByType == map[]
      ensures unsupportedBlockContextByType == unsupportedModelAndPaperSpaceByType == map[]
    {
      blockContextRead, modelSpaceRead, paperSpaceRead := 0, 0, 0;
      blockContextIgnored, modelSpaceIgnored, paperSpaceIgnored := 0, 0, 0;
      unsupportedBlockContext, unsupportedModelAndPaperSpace := 0, 0;
      blockContextReadByType, modelSpaceReadByType, paperSpaceReadByType := map[], map[], map[];
      blockContextIgnoredByType, modelSpaceIgnoredByType, paperSpaceIgnoredByType := map[], map[], map[];
      unsupportedBlockContextByType, unsupportedModelAndPaperSpaceByType := map[], map[];
    }

    /** The counter of a context. */
    function Counter(c: Context): int
      reads this
    {
      match c
      case BlockContextRead => blockContextRead
      case ModelSpaceRead => modelSpaceRead
      case PaperSpaceRead => paperSpaceRead
      case BlockContextIgnored => blockContextIgnored
      case ModelSpaceIgnored => modelSpaceIgnored
      case PaperSpaceIgnored => paperSpaceIgnored
      case UnsupportedBlockContext => unsupportedBlockContext
      case UnsupportedModelAndPaperSpace => unsupportedModelAndPaperSpace
    }

    /** The per-type tally of a context. */
    function ByType(c: Context): map<EntityType, int>
      reads this
    {
      match c
      case BlockContextRead => blockContextReadByType
      case ModelSpaceRead => modelSpaceReadByType
      case PaperSpaceRead => paperSpaceReadByType
      case BlockContextIgnored => blockContextIgnoredByType
      case ModelSpaceIgnored => modelSpaceIgnoredByType
      case PaperSpaceIgnored => paperSpaceIgnoredByType
      case UnsupportedBlockContext => unsupportedBlockContextByType
      case UnsupportedModelAndPaperSpace => unsupportedModelAndPaperSpaceByType
    }

    /** What parseEntity does to count one entity: the counter of the
        context goes up by one (a direct field increment in the parser) and
        the matching addTo* method counts the type. */
    method Count(c: Context, t: Option<EntityType>)
      modifies this
      ensures forall d :: Counter(d) == old(Counter(d)) + (if c == d then 1 else 0)
      ensures forall d :: ByType(d) == if c == d then AddToEntitiesByType(t, old(ByType(d))) else old(ByType(d))
    {
      match c
      case BlockContextRead =>
        blockContextRead := blockContextRead + 1;
        AddToBlockContextEntitiesRead(t);
      case ModelSpaceRead =>
        modelSpaceRead := modelSpaceRead + 1;
        AddToModelSpaceEntitiesRead(t);
      case PaperSpaceRead =>
        paperSpaceRead := paperSpaceRead + 1;
        AddToPaperSpaceEntitiesRead(t);
      case BlockContextIgnored =>
        blockContextIgnored := blockContextIgnored + 1;
        AddToBlockContextEntitiesIgnored(t);
      case ModelSpaceIgnored =>
        modelSpaceIgnored := modelSpaceIgnored + 1;
        AddToModelSpaceEntitiesIgnored(t);
      case PaperSpaceIgnored =>
        paperSpaceIgnored := paperSpaceIgnored + 1;
        AddToPaperSpaceEntitiesIgnored(t);
      case UnsupportedBlockContext =>
        unsupportedBlockContext := unsupportedBlockContext + 1;
        AddToUnsupportedBlockContextEntities(t);
      case UnsupportedModelAndPaperSpace =>
        unsupportedModelAndPaperSpace := unsupportedModelAndPaperSpace + 1;
        AddToUnsupportedModelAndPaperSpaceEntities(t);
    }

    // Each addTo* method may change its own tally and nothing else.

    method AddToBlockContextEntitiesIgnored(t: Option<EntityType>)
      modifies this`blockContextIgnoredByType
      ensures blockContextIgnoredByType == AddToEntitiesByType(t, old(blockContextIgnoredByType))
    {
      blockContextIgnoredByType := AddToEntitiesByType(t, blockContextIgnoredByType);
    }

    method AddToBlockContextEntitiesRead(t: Option<EntityType>)
      modifies this`blockContextReadByType
      ensures blockContextReadByType == AddToEntitiesByType(t, old(blockContextReadByType))
    {
      blockContextReadByType := AddToEntitiesByType(t, blockContextReadByType);
    }

    method AddToModelSpaceEntitiesIgnored(t: Option<EntityType>)
      modifies this`modelSpaceIgnoredByType
      ensures modelSpaceIgnoredByType == AddToEntitiesByType(t, old(modelSpaceIgnoredByType))
    {
      modelSpaceIgnoredByType := AddToEntitiesByType(t, modelSpaceIgnoredByType);
    }

    method AddToModelSpaceEntitiesRead(t: Option<EntityType>)
      modifies this`modelSpaceReadByType
      ensures modelSpaceReadByType == AddToEntitiesByType(t, old(modelSpaceReadByType))
    {
      modelSpaceReadByType := AddToEntitiesByType(t, modelSpaceReadByType);
    }

    method AddToPaperSpaceEntitiesIgnored(t: Option<EntityType>)
      modifies this`paperSpaceIgnoredByType
      ensures paperSpaceIgnoredByType == AddToEntitiesByType(t, old(paperSpaceIgnoredByType))
    {
      paperSpaceIgnoredByType := AddToEntitiesByType(t, paperSpaceIgnoredByType);
    }

    method AddToPaperSpaceEntitiesRead(t: Option<EntityType>)
      modifies this`paperSpaceReadByType
      ensures paperSpaceReadByType == AddToEntitiesByType(t, old(paperSpaceReadByType))
    {
      paperSpaceReadByType := AddToEntitiesByType(t, paperSpaceReadByType);
    }

    method AddToUnsupportedBlockContextEntities(t: Option<EntityType>)
      modifies this`unsupportedBlockContextByType
      ensures unsupportedBlockContextByType == AddToEntitiesByType(t, old(unsupportedBlockContextByType))
    {
      unsupportedBlockContextByType := AddToEntitiesByType(t, unsupportedBlockContextByType);
    }

    method AddToUnsupportedModelAndPaperSpaceEntities(t: Option<EntityType>)
      modifies this`unsupportedModelAndPaperSpaceByType
      ensures unsupportedModelAndPaperSpaceByType
              == AddToEntitiesByType(t, old(unsupportedModelAndPaperSpaceByType))
    {
      unsupportedModelAndPaperSpaceByType := AddToEntitiesByType(t, unsupportedModelAndPaperSpaceByType);
    }
  }
}
