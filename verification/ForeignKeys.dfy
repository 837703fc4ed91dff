/** Referential actions packed into one word: one byte for ON DELETE, one for ON UPDATE. */
module ForeignKeys {

  /** refact */
  datatype RefAct = SetNull | SetDefault | Cascade | Restrict | NoAction

  const OE_NONE: bv32 := 0

  function Code(a: RefAct): bv32 {
    match a
    case NoAction => OE_NONE
    case Restrict => 6
    case SetNull => 7
    case SetDefault => 8
    case Cascade => 9
  }

  /** The action in the words of the statement. */
  function Words(a: RefAct): string {
    match a
    case NoAction => "NO ACTION"
    case Restrict => "RESTRICT"
    case SetNull => "SET NULL"
    case SetDefault => "SET DEFAULT"
    case Cascade => "CASCADE"
  }

  /** actionName: how PRAGMA foreign_key_list reads one byte back.  The last name is for 0 only. */
  function ActionName(action: bv32): string {
    if action == 7 then "SET NULL"
    else if action == 8 then "SET DEFAULT"
    else if action == 9 then "CASCADE"
    else if action == 6 then "RESTRICT"
    else "NO ACTION"
  }

  predicate HasName(action: bv32) { action == 0 || 6 <= action <= 9 }

  /** Each action fits its byte and reads back as the words it was written in. */
  lemma CodeReadsBack(a: RefAct)
    ensures Code(a) < 256 && HasName(Code(a)) && ActionName(Code(a)) == Words(a)
  {
  }

  /** refarg: the clauses that may follow REFERENCES. */
  datatype RefArg = Match | OnInsert(act: RefAct) | OnDelete(act: RefAct) | OnUpdate(act: RefAct)

  /** The value and the mask that a clause leaves on the parser stack. */
  function Value(c: RefArg): bv32 {
    match c
    case Match => 0
    case OnInsert(_) => 0
    case OnDelete(act) => Code(act)
    case OnUpdate(act) => Code(act) << 8
  }

  function Mask(c: RefArg): bv32 {
    match c
    case Match => 0
    case OnInsert(_) => 0
    case OnDelete(_) => 0x0000ff
    case OnUpdate(_) => 0x00ff00
  }

  /** refargs ::= refargs refarg */
  function Combine(args: bv32, value: bv32, mask: bv32): bv32 { (args & !mask) | value }

  // ----- what the clauses say -----

  /** The action of the last ON DELETE clause, or no action. */
  function LastDelete(cs: seq<RefArg>): RefAct {
    if cs == [] then NoAction
    else if cs[|cs| - 1].OnDelete? then cs[|cs| - 1].act
    else LastDelete(cs[..|cs| - 1])
  }

  /** The action of the last ON UPDATE clause, or no action. */
  function LastUpdate(cs: seq<RefArg>): RefAct {
    if cs == [] then NoAction
    else if cs[|cs| - 1].OnUpdate? then cs[|cs| - 1].act
    else LastUpdate(cs[..|cs| - 1])
  }

  /** The two bytes hold these two actions, and nothing else is set. */
  predicate Holds(args: bv32, onDelete: bv32, onUpdate: bv32) {
    args & 0xff == onDelete && (args >> 8) & 0xff == onUpdate && args < 0x1_0000
  }

  lemma DeleteWins(args: bv32, onDelete: bv32, onUpdate: bv32, code: bv32)
    requires Holds(args, onDelete, onUpdate) && code < 256
    ensures Holds(Combine(args, code, 0x0000ff), code, onUpdate)
  {
  }

  lemma UpdateWins(args: bv32, onDelete: bv32, onUpdate: bv32, code: bv32)
    requires Holds(args, onDelete, onUpdate) && code < 256
    ensures Holds(Combine(args, code << 8, 0x00ff00), onDelete, code)
  {
  }

  lemma OthersKeep(args: bv32)
    ensures Combine(args, 0, 0) == args
  {
  }

  /** One more clause replaces the action of its own byte; MATCH and ON INSERT change nothing. */
  lemma ClauseWins(args: bv32, cs: seq<RefArg>, c: RefArg)
    requires Holds(args, Code(LastDelete(cs)), Code(LastUpdate(cs)))
    ensures Holds(Combine(args, Value(c), Mask(c)), Code(LastDelete(cs + [c])), Code(LastUpdate(cs + [c])))
  {
    assert (cs + [c])[..|cs + [c]| - 1] == cs;
    var d, u := Code(LastDelete(cs)), Code(LastUpdate(cs));
    hide Holds, Combine, Code;
    match c
    case OnDelete(act) =>
      CodeReadsBack(act);
      DeleteWins(args, d, u, Code(act));
    case OnUpdate(act) =>
      CodeReadsBack(act);
      UpdateWins(args, d, u, Code(act));
    case _ => OthersKeep(args);
  }

  /** Reduce a list of clauses.  For any list, the low byte ends up with the last ON DELETE
      action and the next byte with the last ON UPDATE action, and both read back as the words of
      those clauses, or as NO ACTION if there is none. */
  method ReduceRefArgs(cs: seq<RefArg>) returns (args: bv32)
    ensures args & 0xff == Code(LastDelete(cs))
    ensures (args >> 8) & 0xff == Code(LastUpdate(cs))
    ensures args < 0x1_0000
    ensures ActionName(args & 0xff) == Words(LastDelete(cs)) && HasName(args & 0xff)
    ensures ActionName((args >> 8) & 0xff) == Words(LastUpdate(cs)) && HasName((args >> 8) & 0xff)
  {
    hide ActionName, Words, HasName, Code;
    args := OE_NONE * 0x0101;
    NoActions();
    for i := 0 to |cs|
      invariant Holds(args, Code(LastDelete(cs[..i])), Code(LastUpdate(cs[..i])))
    {
      assert cs[..i + 1] == cs[..i] + [cs[i]];
      ClauseWins(args, cs[..i], cs[i]);
      args := (args & !Mask(cs[i])) | Value(cs[i]);
    }
    assert cs[..|cs|] == cs;
    CodeReadsBack(LastDelete(cs));
    CodeReadsBack(LastUpdate(cs));
  }

  lemma NoActions()
    ensures Holds(OE_NONE * 0x0101, Code(NoAction), Code(NoAction))
  {
  }
}
