/**
 * The part of an OpenFlow 1.3 switch the integration bridge programs: flow
 * tables whose entries are identified by (table, priority, match), the
 * instructions of section 5.9 and the flow-table modification messages of
 * section 6.4 of the OpenFlow Switch Specification 1.3 (add, delete,
 * delete-strict).
 */
module OpenFlow {
  import opened Wrappers

  /** OFPVID_PRESENT: marks a VLAN id as present in the vlan_vid field. */
  const OFPVID_PRESENT := 0x1000

  /** The match fields the pipeline uses. */
  datatype Field = InPort | Metadata | EthDst | TunnelId | VlanVid

  /** A field value: a number, an Ethernet address, or an address with a mask. */
  datatype FieldValue = Num(n: int) | Mac(addr: string) | MaskedMac(addr: string, mask: string)

  type Match = map<Field, FieldValue>

  datatype Action =
    | Output(port: int)
    | SetField(field: Field, value: FieldValue)
    | PushVlan(ethertype: int)
    | PopVlan

  datatype Instruction =
    | ApplyActions(actions: seq<Action>)
    | WriteMetadata(metadata: int, mask: int)
    | GotoTable(tableId: int)

  datatype InstructionKind = ApplyActionsKind | WriteMetadataKind | GotoTableKind

  function KindOf(i: Instruction): InstructionKind
  {
    match i
    case ApplyActions(_) => ApplyActionsKind
    case WriteMetadata(_, _) => WriteMetadataKind
    case GotoTable(_) => GotoTableKind
  }

  /** What identifies a flow entry within the switch: table, priority and match. */
  datatype FlowKey = FlowKey(tableId: int, priority: int, flowMatch: Match)

  datatype FlowEntry = FlowEntry(tableId: int, priority: int, flowMatch: Match, instructions: seq<Instruction>)
  {
    function Key(): FlowKey
    {
      FlowKey(tableId, priority, flowMatch)
    }
  }

  /** The flow entries of every table of the switch. */
  type FlowTable = map<FlowKey, seq<Instruction>>

  /** The tables a delete applies to: all of them (OFPTT_ALL) or one. */
  datatype TableSelector = AllTables | OneTable(tableId: int)

  /**
   * Section 5.9: an instruction set holds at most one instruction of each
   * type, and Goto-Table may only name a table with a greater id than the
   * current one.
   */
  predicate WellFormedInstructions(tableId: int, instructions: seq<Instruction>)
  {
    && (forall i, j :: 0 <= i < j < |instructions| ==> KindOf(instructions[i]) != KindOf(instructions[j]))
    && (forall i :: 0 <= i < |instructions| && instructions[i].GotoTable? ==> instructions[i].tableId > tableId)
  }

  predicate WellFormedEntry(e: FlowEntry)
  {
    WellFormedInstructions(e.tableId, e.instructions)
  }

  predicate WellFormedTable(t: FlowTable)
  {
    forall k :: k in t ==> WellFormedInstructions(k.tableId, t[k])
  }

  /** The actions of the Apply-Actions instructions, in order. */
  function AppliedActions(instructions: seq<Instruction>): seq<Action>
  {
    if instructions == [] then []
    else (if instructions[0].ApplyActions? then instructions[0].actions else [])
         + AppliedActions(instructions[1..])
  }

  /** The ports the actions output to, in order. */
  function OutputPorts(actions: seq<Action>): seq<int>
  {
    if actions == [] then []
    else (if actions[0].Output? then [actions[0].port] else []) + OutputPorts(actions[1..])
  }

  /** The table the instructions continue to, if any. */
  function GotoTarget(instructions: seq<Instruction>): Option<int>
  {
    if instructions == [] then None
    else if instructions[0].GotoTable? then Some(instructions[0].tableId)
    else GotoTarget(instructions[1..])
  }

  /** The (metadata, mask) the instructions write, if any. */
  function MetadataWrite(instructions: seq<Instruction>): Option<(int, int)>
  {
    if instructions == [] then None
    else if instructions[0].WriteMetadata? then Some((instructions[0].metadata, instructions[0].mask))
    else MetadataWrite(instructions[1..])
  }

  /** The observers of a one-instruction list read that instruction. */
  lemma ObserveSingle(a: Instruction)
    ensures AppliedActions([a]) == (if a.ApplyActions? then a.actions else [])
    ensures GotoTarget([a]) == (if a.GotoTable? then Some(a.tableId) else None)
    ensures MetadataWrite([a]) == (if a.WriteMetadata? then Some((a.metadata, a.mask)) else None)
  {
    assert [a][1..] == [];
    assert AppliedActions([a]) == (if a.ApplyActions? then a.actions else []) + AppliedActions([]);
  }

  /** The observers of a two-instruction list read its two instructions in order. */
  lemma ObservePair(a: Instruction, b: Instruction)
    ensures AppliedActions([a, b]) == (if a.ApplyActions? then a.actions else []) + (if b.ApplyActions? then b.actions else [])
    ensures GotoTarget([a, b]) == (if a.GotoTable? then Some(a.tableId) else if b.GotoTable? then Some(b.tableId) else None)
    ensures MetadataWrite([a, b]) == (if a.WriteMetadata? then Some((a.metadata, a.mask)) else if b.WriteMetadata? then Some((b.metadata, b.mask)) else None)
  {
    assert [a, b][1..] == [b];
    assert [b][1..] == [];
    assert AppliedActions([b]) == (if b.ApplyActions? then b.actions else []) + AppliedActions([]);
    assert AppliedActions([a, b]) == (if a.ApplyActions? then a.actions else []) + AppliedActions([b]);
    assert GotoTarget([b]) == (if b.GotoTable? then Some(b.tableId) else GotoTarget([]));
    assert GotoTarget([a, b]) == (if a.GotoTable? then Some(a.tableId) else GotoTarget([b]));
    assert MetadataWrite([b]) == (if b.WriteMetadata? then Some((b.metadata, b.mask)) else MetadataWrite([]));
    assert MetadataWrite([a, b]) == (if a.WriteMetadata? then Some((a.metadata, a.mask)) else MetadataWrite([b]));
  }

  /** The observers of a three-instruction list read its three instructions in order. */
  lemma ObserveTriple(a: Instruction, b: Instruction, c: Instruction)
    requires a.WriteMetadata? && b.ApplyActions? && c.GotoTable?
    ensures AppliedActions([a, b, c]) == b.actions
    ensures GotoTarget([a, b, c]) == Some(c.tableId)
    ensures MetadataWrite([a, b, c]) == Some((a.metadata, a.mask))
  {
    assert [a, b, c][1..] == [b, c];
    ObservePair(b, c);
  }

  /** A goto target found by GotoTarget is one of the instructions. */
  lemma {:induction false} GotoTargetIsInstruction(instructions: seq<Instruction>)
    requires GotoTarget(instructions).Some?
    ensures exists i :: 0 <= i < |instructions| && instructions[i] == GotoTable(GotoTarget(instructions).value)
  {
    if !instructions[0].GotoTable? {
      GotoTargetIsInstruction(instructions[1..]);
      var i :| 0 <= i < |instructions[1..]| && instructions[1..][i] == GotoTable(GotoTarget(instructions).value);
      assert instructions[i + 1] == instructions[1..][i];
    }
  }

  /** In a well-formed entry the goto target, if any, is a later table. */
  lemma GotoTargetIsForward(tableId: int, instructions: seq<Instruction>)
    requires WellFormedInstructions(tableId, instructions)
    requires GotoTarget(instructions).Some?
    ensures GotoTarget(instructions).value > tableId
  {
    GotoTargetIsInstruction(instructions);
  }

  /** The entry's match has every field of m, with the same value. */
  predicate Covers(entryMatch: Match, m: Match)
  {
    forall f :: f in m ==> f in entryMatch && entryMatch[f] == m[f]
  }

  /** The entries a non-strict delete with this table selector and match removes. */
  predicate Selects(sel: TableSelector, m: Match, k: FlowKey)
  {
    (sel.AllTables? || k.tableId == sel.tableId) && Covers(k.flowMatch, m)
  }

  /** OFPFC_ADD (section 6.4). */
  function Install(t: FlowTable, e: FlowEntry): FlowTable
  {
    t[e.Key() := e.instructions]
  }

  /** OFPFC_DELETE (section 6.4), from the selected tables. */
  function Delete(t: FlowTable, sel: TableSelector, m: Match): FlowTable
  {
    map k | k in t && !Selects(sel, m, k) :: t[k]
  }

  /** OFPFC_DELETE_STRICT (section 6.4). */
  function DeleteStrict(t: FlowTable, tableId: int, priority: int, m: Match): FlowTable
  {
    t - {FlowKey(tableId, priority, m)}
  }

  /**
   * An added entry is in the table with its instructions; an entry with the
   * same table, priority and match is replaced; nothing else changes.
   */
  lemma InstallSpec(t: FlowTable, e: FlowEntry)
    ensures e.Key() in Install(t, e) && Install(t, e)[e.Key()] == e.instructions
    ensures forall k :: k in t && k != e.Key() ==> k in Install(t, e) && Install(t, e)[k] == t[k]
    ensures forall k :: k in Install(t, e) ==> k in t || k == e.Key()
  {
  }

  /**
   * A non-strict delete removes, from the selected tables, exactly the
   * entries whose match has all the given fields with the given values,
   * whatever their priority; the others stay as they were.
   */
  lemma DeleteSpec(t: FlowTable, sel: TableSelector, m: Match)
    ensures forall k :: k in Delete(t, sel, m) <==> k in t && !Selects(sel, m, k)
    ensures forall k :: k in Delete(t, sel, m) ==> Delete(t, sel, m)[k] == t[k]
  {
  }

  /** A strict delete removes only the entry with exactly this table, priority and match. */
  lemma DeleteStrictSpec(t: FlowTable, tableId: int, priority: int, m: Match)
    ensures forall k :: k in DeleteStrict(t, tableId, priority, m) <==> k in t && k != FlowKey(tableId, priority, m)
    ensures forall k :: k in DeleteStrict(t, tableId, priority, m) ==> DeleteStrict(t, tableId, priority, m)[k] == t[k]
  {
  }

  /** Adding a well-formed entry keeps every goto of the table pointing forward. */
  lemma InstallWellFormed(t: FlowTable, e: FlowEntry)
    requires WellFormedTable(t) && WellFormedEntry(e)
    ensures WellFormedTable(Install(t, e))
  {
  }

  /** Deleting keeps every goto of the table pointing forward. */
  lemma DeleteWellFormed(t: FlowTable, sel: TableSelector, m: Match)
    requires WellFormedTable(t)
    ensures WellFormedTable(Delete(t, sel, m))
  {
  }

  lemma DeleteStrictWellFormed(t: FlowTable, tableId: int, priority: int, m: Match)
    requires WellFormedTable(t)
    ensures WellFormedTable(DeleteStrict(t, tableId, priority, m))
  {
  }

  /** Deleting with an empty match from all tables empties the switch. */
  lemma DeleteEverything(t: FlowTable)
    ensures Delete(t, AllTables, map[]) == map[]
  {
    var r := Delete(t, AllTables, map[]);
    forall k | k in t ensures Selects(AllTables, map[], k) { }
    assert r.Keys == {};
  }

  /** The ports of a concatenation of action lists. */
  lemma {:induction false} OutputPortsAppend(a: seq<Action>, b: seq<Action>)
    ensures OutputPorts(a + b) == OutputPorts(a) + OutputPorts(b)
  {
    if a != [] {
      assert (a + b)[1..] == a[1..] + b;
      OutputPortsAppend(a[1..], b);
    } else {
      assert a + b == b;
    }
  }
}
