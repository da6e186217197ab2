/**
 * Flattening of the document into the list the drawing step walks
 * (GetFinalEntities): one level of block expansion, in document order.
 */
module Flatten {
  import opened Common
  import opened Geometry
  import opened Dxf

  /** The placement data copied from an insert onto each entity of its block. */
  datatype InsertFeatures = InsertFeatures(
    location: Point, xScaleFactor: real, yScaleFactor: real, zScaleFactor: real, rotation: real,
    columnCount: int, rowCount: int, columnSpacing: real, rowSpacing: real)

  /** A flattened entity: its tag, the parsed entity and the optional insert data. */
  datatype CustomEntity = CustomEntity(
    typeName: string, entity: Entity,
    nestedInsertFeatures: Option<InsertFeatures>, topInsertFeatures: Option<InsertFeatures>)

  const InsertTag: string := "insert"

  function FeaturesOf(insert: Entity): InsertFeatures
    requires insert.Insert?
  {
    InsertFeatures(insert.location, insert.xScaleFactor, insert.yScaleFactor, insert.zScaleFactor,
                   insert.rotation, insert.columnCount, insert.rowCount, insert.columnSpacing, insert.rowSpacing)
  }

  /**
   * The position of the first block called `name`, or |blocks| when there is none.
   */
  function BlockIndex(blocks: seq<Block>, name: string): (k: nat)
    ensures k <= |blocks|
    ensures k < |blocks| ==> blocks[k].name == name
    ensures forall j :: 0 <= j < k ==> blocks[j].name != name
    decreases |blocks|
  {
    if blocks == [] || blocks[0].name == name then 0 else 1 + BlockIndex(blocks[1..], name)
  }

  /** The block an insert called `name` resolves to: the first of that name, if any. */
  function FindBlock(blocks: seq<Block>, name: string): Option<Block>
  {
    var k := BlockIndex(blocks, name);
    if k < |blocks| then Some(blocks[k]) else None
  }

  /** The entities of a block, each tagged "insert" and carrying the insert's features. */
  function Instances(entities: seq<Entity>, features: InsertFeatures): seq<CustomEntity>
  {
    seq(|entities|, k requires 0 <= k < |entities| => CustomEntity(InsertTag, entities[k], Some(features), None))
  }

  /** What one top-level entity adds to the flattened list. */
  function Contribution(e: Entity, blocks: seq<Block>): seq<CustomEntity>
  {
    if e.Insert? then
      match FindBlock(blocks, e.name)
      case None => []
      case Some(block) => Instances(block.entities, FeaturesOf(e))
    else
      [CustomEntity(TypeName(e), e, None, None)]
  }

  /** Contribution with the block list fixed. */
  function ContributionIn(blocks: seq<Block>): Entity -> seq<CustomEntity>
  {
    (e: Entity) => Contribution(e, blocks)
  }

  /** The flattened list of a sequence of top-level entities: their contributions, in order. */
  function FinalEntities(entities: seq<Entity>, blocks: seq<Block>): seq<CustomEntity>
  {
    FlatMap(entities, ContributionIn(blocks))
  }

  method GetFinalEntities(dxf: Document) returns (entities: seq<CustomEntity>)
    ensures entities == FinalEntities(dxf.entities, dxf.blocks)
  {
    entities := [];
    for i := 0 to |dxf.entities|
      invariant entities == FinalEntities(dxf.entities[..i], dxf.blocks)
    {
      var entity := dxf.entities[i];
      assert dxf.entities[..i + 1] == dxf.entities[..i] + [entity];
      FinalEntitiesSnoc(dxf.entities[..i], entity, dxf.blocks);
      if entity.Insert? {
        var block := FindBlock(dxf.blocks, entity.name);
        if block.Some? {
          var nestedEntities := Instances(block.value.entities, FeaturesOf(entity));
          entities := entities + nestedEntities;
        }
      } else {
        entities := entities + [CustomEntity(TypeName(entity), entity, None, None)];
      }
    }
    assert dxf.entities[..|dxf.entities|] == dxf.entities;
  }

  /** Appending one top-level entity appends its contribution. */
  lemma FinalEntitiesSnoc(entities: seq<Entity>, e: Entity, blocks: seq<Block>)
    ensures FinalEntities(entities + [e], blocks) == FinalEntities(entities, blocks) + Contribution(e, blocks)
  {
    FlatMapSnoc(entities, e, ContributionIn(blocks));
  }

  /** Flattening is compositional: document order is kept. */
  lemma FinalEntitiesAppend(a: seq<Entity>, b: seq<Entity>, blocks: seq<Block>)
    ensures FinalEntities(a + b, blocks) == FinalEntities(a, blocks) + FinalEntities(b, blocks)
  {
    FlatMapAppend(a, b, ContributionIn(blocks));
  }

  /** Without inserts, each entity yields exactly one entry: itself, tagged with its type name, with no insert data. */
  lemma {:induction false} FlattenWithoutInserts(entities: seq<Entity>, blocks: seq<Block>)
    requires forall i :: 0 <= i < |entities| ==> !entities[i].Insert?
    ensures |FinalEntities(entities, blocks)| == |entities|
    ensures forall i :: 0 <= i < |entities| ==>
      FinalEntities(entities, blocks)[i] == CustomEntity(TypeName(entities[i]), entities[i], None, None)
    decreases |entities|
  {
    if entities != [] {
      var init := entities[..|entities| - 1];
      assert entities == init + [entities[|entities| - 1]];
      FinalEntitiesSnoc(init, entities[|entities| - 1], blocks);
      FlattenWithoutInserts(init, blocks);
    }
  }

  /** An insert naming no block adds nothing; its neighbours are flattened as if it were absent. */
  lemma UnresolvedInsertSkipped(before: seq<Entity>, insert: Entity, after: seq<Entity>, blocks: seq<Block>)
    requires insert.Insert? && forall k :: 0 <= k < |blocks| ==> blocks[k].name != insert.name
    ensures FinalEntities(before + [insert] + after, blocks)
         == FinalEntities(before, blocks) + FinalEntities(after, blocks)
  {
    FinalEntitiesAppend(before + [insert], after, blocks);
    FinalEntitiesSnoc(before, insert, blocks);
  }

  /**
   * An insert naming a block is replaced, in place, by the entities of the first
   * block of that name, in block order, each tagged "insert" and carrying the
   * insert's features; inserts inside that block stay unexpanded.
   */
  lemma ResolvedInsertExpanded(before: seq<Entity>, insert: Entity, after: seq<Entity>, blocks: seq<Block>, k: int)
    requires insert.Insert? && 0 <= k < |blocks| && blocks[k].name == insert.name
    requires forall j :: 0 <= j < k ==> blocks[j].name != insert.name
    ensures var expanded := Instances(blocks[k].entities, FeaturesOf(insert));
      && FinalEntities(before + [insert] + after, blocks)
         == FinalEntities(before, blocks) + expanded + FinalEntities(after, blocks)
      && |expanded| == |blocks[k].entities|
      && forall j :: 0 <= j < |expanded| ==>
           && expanded[j].typeName == InsertTag
           && expanded[j].entity == blocks[k].entities[j]
           && expanded[j].nestedInsertFeatures == Some(FeaturesOf(insert))
           && expanded[j].topInsertFeatures == None
  {
    var k' := BlockIndex(blocks, insert.name);
    assert k' == k;
    FinalEntitiesAppend(before + [insert], after, blocks);
    FinalEntitiesSnoc(before, insert, blocks);
  }

  /** Where an entry of the flattened list comes from. */
  predicate FromTopLevel(entities: seq<Entity>, c: CustomEntity)
  {
    && c.entity in entities && !c.entity.Insert?
    && c.typeName == TypeName(c.entity) && c.nestedInsertFeatures == None && c.topInsertFeatures == None
  }

  predicate FromBlockOf(insert: Entity, blocks: seq<Block>, c: CustomEntity)
  {
    && insert.Insert?
    && c.typeName == InsertTag && c.topInsertFeatures == None
    && c.nestedInsertFeatures == Some(FeaturesOf(insert))
    && match FindBlock(blocks, insert.name)
       case None => false
       case Some(block) => c.entity in block.entities
  }

  /**
   * Every flattened entry is either a top-level non-insert, or a member of the
   * block of some top-level insert. In particular an insert entity only appears
   * as a block member, never expanded further, and no entry has top-level insert data.
   */
  lemma {:induction false} FlattenProvenance(entities: seq<Entity>, blocks: seq<Block>)
    ensures forall i :: 0 <= i < |FinalEntities(entities, blocks)| ==>
      var c := FinalEntities(entities, blocks)[i];
      FromTopLevel(entities, c) || exists k :: 0 <= k < |entities| && FromBlockOf(entities[k], blocks, c)
    decreases |entities|
  {
    if entities != [] {
      var init, last := entities[..|entities| - 1], entities[|entities| - 1];
      assert entities == init + [last];
      FinalEntitiesSnoc(init, last, blocks);
      FlattenProvenance(init, blocks);
      var out := FinalEntities(entities, blocks);
      forall i | 0 <= i < |out|
        ensures FromTopLevel(entities, out[i]) || exists k :: 0 <= k < |entities| && FromBlockOf(entities[k], blocks, out[i])
      {
        var n := |FinalEntities(init, blocks)|;
        if i < n {
          var c := FinalEntities(init, blocks)[i];
          assert out[i] == c;
          if !FromTopLevel(init, c) {
            var k :| 0 <= k < |init| && FromBlockOf(init[k], blocks, c);
            assert entities[k] == init[k];
          }
        } else {
          assert out[i] == Contribution(last, blocks)[i - n];
          assert FromTopLevel(entities, out[i]) || FromBlockOf(entities[|entities| - 1], blocks, out[i]);
        }
      }
    }
  }
}
