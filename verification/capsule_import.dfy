/** Importing the tools of an exported capsule: every tool becomes a new row
    under a name that is still free, and is linked to the capsule. */
module CapsuleImport {
  import opened Text

  /** A row of the capability table; the name is unique there. The texts stand for JSON values. */
  datatype Capability = Capability(
    description: string, category: string, schema: string, config: string, policy: string, implementation: string)

  /** A value of the registry: an object with some members, or something else. */
  datatype Definition = Object(members: map<string, string>) | NotAnObject

  datatype Tool = Tool(name: string, definition: Definition)

  type Table = map<string, Capability>

  function Member(members: map<string, string>, key: string, default_: string): string {
    if key in members then members[key] else default_
  }

  function RowOf(members: map<string, string>): Capability {
    Capability(Member(members, "description", ""), Member(members, "category", "general"),
               Member(members, "schema", "{}"), Member(members, "config", "{}"),
               Member(members, "policy", "{}"), Member(members, "implementation", "{}"))
  }

  // ---- names ----

  /** `f"{name}_v{suffix}"` */
  function Suffixed(name: string, suffix: nat): string { name + "_v" + Decimal(suffix) }

  lemma {:induction false} SuffixedInjective(name: string, i: nat, j: nat)
    requires Suffixed(name, i) == Suffixed(name, j)
    ensures i == j
  {
    var n := |name + "_v"|;
    assert Suffixed(name, i)[n..] == Decimal(i) && Suffixed(name, j)[n..] == Decimal(j);
    DecimalInjective(i, j);
  }

  ghost predicate IsAhead(name: string, suffix: nat, x: string) {
    exists j: nat :: j >= suffix && x == Suffixed(name, j)
  }

  /** The taken names the search could still meet. */
  ghost function Ahead(keys: set<string>, name: string, suffix: nat): set<string> {
    set x | x in keys && IsAhead(name, suffix, x)
  }

  /** Passing a taken name leaves fewer of them ahead: there are only finitely many rows, and no name comes twice. */
  lemma {:induction false} AheadShrinks(keys: set<string>, name: string, suffix: nat)
    requires Suffixed(name, suffix) in keys
    ensures |Ahead(keys, name, suffix + 1)| < |Ahead(keys, name, suffix)|
  {
    var now, next := Ahead(keys, name, suffix), Ahead(keys, name, suffix + 1);
    var x := Suffixed(name, suffix);
    assert IsAhead(name, suffix, x) && x in now;
    if IsAhead(name, suffix + 1, x) {
      var j: nat :| j >= suffix + 1 && x == Suffixed(name, j);
      SuffixedInjective(name, suffix, j);
      assert false;
    }
    hide Suffixed;
    forall y | y in next ensures y in now {
      var j: nat :| j >= suffix + 1 && y == Suffixed(name, j);
    }
    assert next <= now - {x};
    SubsetSmaller(next, now - {x});
  }

  lemma {:induction false} SubsetSmaller(a: set<string>, b: set<string>)
    requires a <= b
    ensures |a| <= |b|
  {
    if a != {} {
      var x :| x in a;
      SubsetSmaller(a - {x}, b - {x});
    }
  }

  /** The first free name with a suffix from k on. */
  ghost function FirstFree(keys: set<string>, name: string, k: nat): (r: string)
    ensures r !in keys
    decreases |Ahead(keys, name, k)|
  {
    if Suffixed(name, k) !in keys then Suffixed(name, k)
    else
      AheadShrinks(keys, name, k);
      FirstFree(keys, name, k + 1)
  }

  /** The name a tool gets: its own if it is free, else the first free `_v1`, `_v2`, … */
  ghost function FreeName(keys: set<string>, name: string): (r: string)
    ensures r !in keys
  {
    if name in keys then FirstFree(keys, name, 1) else name
  }

  /** The smallest suffix wins. */
  lemma {:induction false} FirstFreeIsFirst(keys: set<string>, name: string, k: nat) returns (n: nat)
    ensures k <= n && FirstFree(keys, name, k) == Suffixed(name, n)
    ensures forall j :: k <= j < n ==> Suffixed(name, j) in keys
    decreases |Ahead(keys, name, k)|
  {
    hide Suffixed, Ahead;
    n := k;
    if Suffixed(name, k) in keys {
      AheadShrinks(keys, name, k);
      n := FirstFreeIsFirst(keys, name, k + 1);
    }
  }

  // ---- what an import does ----

  /** The tables an import changes: the capabilities, the capsule's links, the warnings. */
  datatype Tables = Tables(table: Table, links: set<string>, warnings: seq<string>)

  ghost function ImportTool(t: Tables, tool: Tool): Tables {
    match tool.definition
    case NotAnObject => t.(warnings := t.warnings + [tool.name])
    case Object(members) =>
      var name := FreeName(t.table.Keys, tool.name);
      t.(table := t.table[name := RowOf(members)], links := t.links + {name})
  }

  /** The tools one after the other. */
  ghost function ImportAll(t: Tables, tools: seq<Tool>): Tables {
    if tools == [] then t else ImportTool(ImportAll(t, tools[..|tools| - 1]), tools[|tools| - 1])
  }

  /** The names the tools get; a malformed tool gets none. */
  ghost function Assigned(t: Tables, tools: seq<Tool>): (names: seq<Option<string>>)
    ensures |names| == |tools|
  {
    if tools == [] then []
    else
      var n := |tools| - 1;
      var before := ImportAll(t, tools[..n]);
      Assigned(t, tools[..n])
      + [NextName(before, tools[n])]
  }

  /** The names among them. */
  ghost function Given(names: seq<Option<string>>): set<string> {
    set i | 0 <= i < |names| && names[i].Some? :: names[i].value
  }

  /** How many tools are malformed. */
  function Malformed(tools: seq<Tool>): seq<string> {
    if tools == [] then []
    else
      var n := |tools| - 1;
      Malformed(tools[..n]) + if tools[n].definition.Object? then [] else [tools[n].name]
  }

  lemma {:induction false} GivenGrows(names: seq<Option<string>>, name: Option<string>)
    ensures Given(names + [name]) == Given(names) + if name.Some? then {name.value} else {}
  {
    var more := names + [name];
    forall x | x in Given(names) ensures x in Given(more) {
      var i :| 0 <= i < |names| && names[i] == Some(x);
      assert more[i] == names[i];
    }
    if name.Some? { assert more[|names|] == name; }
    forall x | x in Given(more) && !(name == Some(x)) ensures x in Given(names) {
      var i :| 0 <= i < |more| && more[i] == Some(x);
      assert names[i] == Some(x);
    }
  }

  /** Exactly the well-formed tools have names, all of them free and no two alike. */
  ghost predicate NamesFit(table: Table, tools: seq<Tool>, names: seq<Option<string>>) {
    && |names| == |tools|
    && (forall i :: 0 <= i < |tools| ==> (names[i].Some? <==> tools[i].definition.Object?))
    && (forall i :: 0 <= i < |names| && names[i].Some? ==> names[i].value !in table)
    && (forall i, j :: 0 <= i < j < |names| && names[i].Some? && names[j].Some? ==> names[i] != names[j])
  }

  /** Every named row holds what its tool's definition says. */
  ghost predicate RowsFit(tools: seq<Tool>, names: seq<Option<string>>, table: Table) {
    |names| == |tools| &&
    forall i :: 0 <= i < |names| && names[i].Some? && tools[i].definition.Object? ==>
      names[i].value in table && table[names[i].value] == RowOf(tools[i].definition.members)
  }

  /** Every row of the first table is in the second, unchanged. */
  ghost predicate RowsKept(before: Table, after: Table) {
    forall x :: x in before ==> x in after && after[x] == before[x]
  }

  /** After an import every old row is as before, every well-formed tool has one row under a name of its own that
      was free, holding what its definition says, and the capsule is linked to exactly those rows in addition;
      every malformed tool is named in a warning, and there are no other warnings. */
  ghost predicate Imported(t: Tables, tools: seq<Tool>, names: seq<Option<string>>, r: Tables) {
    && NamesFit(t.table, tools, names)
    && RowsFit(tools, names, r.table)
    && RowsKept(t.table, r.table)
    && r.table.Keys == t.table.Keys + Given(names)
    && r.links == t.links + Given(names)
    && r.warnings == t.warnings + Malformed(tools)
  }

  lemma {:induction false} NamesStep(
      before: Table, after: Table, tools: seq<Tool>, names: seq<Option<string>>, tool: Tool, name: Option<string>)
    requires NamesFit(before, tools, names) && after.Keys == before.Keys + Given(names)
    requires name.Some? <==> tool.definition.Object?
    requires name.Some? ==> name.value !in after
    ensures NamesFit(before, tools + [tool], names + [name])
  {
    var more := names + [name];
    forall i | 0 <= i < |names| && names[i].Some? ensures names[i] != name {
      assert names[i].value in Given(names);
    }
    assert forall i :: 0 <= i < |names| ==> more[i] == names[i] && (tools + [tool])[i] == tools[i];
  }

  lemma {:induction false} RowsStep(
      tools: seq<Tool>, names: seq<Option<string>>, table: Table, tool: Tool, name: Option<string>, after: Table)
    requires RowsFit(tools, names, table) && (name.Some? <==> tool.definition.Object?)
    requires name.Some? ==> name.value !in table && after == table[name.value := RowOf(tool.definition.members)]
    requires name.None? ==> after == table
    ensures RowsFit(tools + [tool], names + [name], after)
  {
    hide RowOf;
    var more := names + [name];
    assert forall i :: 0 <= i < |names| ==> more[i] == names[i] && (tools + [tool])[i] == tools[i];
  }

  lemma {:induction false} MalformedGrows(tools: seq<Tool>, tool: Tool)
    ensures Malformed(tools + [tool]) == Malformed(tools) + if tool.definition.Object? then [] else [tool.name]
  {
    assert (tools + [tool])[..|tools|] == tools;
  }

  /** The name the next tool gets. */
  ghost function NextName(r: Tables, tool: Tool): Option<string> {
    if tool.definition.Object? then Some(FreeName(r.table.Keys, tool.name)) else None
  }

  lemma {:induction false} ImportedStep(t: Tables, tools: seq<Tool>, names: seq<Option<string>>, r: Tables, tool: Tool)
    requires Imported(t, tools, names, r)
    ensures Imported(t, tools + [tool], names + [NextName(r, tool)], ImportTool(r, tool))
  {
    var name, after := NextName(r, tool), ImportTool(r, tool);
    hide RowOf, FreeName, Malformed, Given, NamesFit, RowsFit;
    assert name.Some? ==> after.table == r.table[name.value := RowOf(tool.definition.members)];
    assert name.Some? ==> after.links == r.links + {name.value} && after.warnings == r.warnings;
    assert name.None? ==> after == r.(warnings := r.warnings + [tool.name]);
    GivenGrows(names, name);
    MalformedGrows(tools, tool);
    NamesStep(t.table, r.table, tools, names, tool, name);
    RowsStep(tools, names, r.table, tool, name, after.table);
    hide ImportTool, NextName;
    assert after.warnings == t.warnings + Malformed(tools + [tool]);
    assert after.links == t.links + Given(names + [name]);
    assert after.table.Keys == t.table.Keys + Given(names + [name]);
  }

  /** The main result, whatever the table and the registry are. */
  lemma {:induction false} ImportExact(t: Tables, tools: seq<Tool>)
    ensures Imported(t, tools, Assigned(t, tools), ImportAll(t, tools))
  {
    if tools == [] {
      hide RowOf;
      assert Given([]) == {};
    } else {
      var n := |tools| - 1;
      assert tools == tools[..n] + [tools[n]];
      hide Imported, ImportTool, NextName;
      ImportExact(t, tools[..n]);
      ImportedStep(t, tools[..n], Assigned(t, tools[..n]), ImportAll(t, tools[..n]), tools[n]);
    }
  }

  predicate SmallestFree(keys: set<string>, name: string, n: nat, actual: string) {
    n >= 1 && actual == Suffixed(name, n) && actual !in keys && forall j :: 1 <= j < n ==> Suffixed(name, j) in keys
  }

  /** A tool keeps its own name exactly when no row had it when its turn came; otherwise its name carries the
      smallest suffix that was free. */
  lemma {:induction false} NameGiven(keys: set<string>, name: string)
    ensures FreeName(keys, name) == name <==> name !in keys
    ensures name in keys ==> exists n: nat :: SmallestFree(keys, name, n, FreeName(keys, name))
  {
    if name in keys {
      var n := FirstFreeIsFirst(keys, name, 1);
      assert SmallestFree(keys, name, n, FreeName(keys, name));
    }
  }

  // ---- the import itself ----

  class Importer {
    var table: Table
    var links: set<string>
    var warnings: seq<string>

    ghost function Contents(): Tables reads this { Tables(table, links, warnings) }

    constructor (table: Table, links: set<string>)
      ensures Contents() == Tables(table, links, [])
    {
      this.table, this.links, warnings := table, links, [];
    }

    /** Tries the name, then `_v1`, `_v2`, … until one is free. */
    method FindFreeName(name: string) returns (actual: string)
      ensures actual == FreeName(table.Keys, name)
    {
      actual := name;
      var suffix := 1;
      hide Suffixed, Ahead, IsAhead;
      while actual in table
        invariant suffix >= 1
        invariant suffix == 1 ==> actual == name
        invariant suffix > 1 ==> name in table && actual == Suffixed(name, suffix - 1)
        invariant suffix > 1 ==> FirstFree(table.Keys, name, 1) == FirstFree(table.Keys, name, suffix - 1)
        decreases if suffix == 1 then 1 else 0, |Ahead(table.Keys, name, suffix - 1)|
      {
        if suffix > 1 { AheadShrinks(table.Keys, name, suffix - 1); }
        actual := Suffixed(name, suffix);
        suffix := suffix + 1;
      }
    }

    method Import(tool: Tool)
      modifies this
      ensures Contents() == ImportTool(old(Contents()), tool)
    {
      hide FreeName;
      var actual := FindFreeName(tool.name);
      match tool.definition {
        case NotAnObject =>
          warnings := warnings + [tool.name];
        case Object(members) =>
          var created := actual !in table;
          if created { table := table[actual := RowOf(members)]; }
          links := links + {actual};
          assert created;   // so the warning about a renamed tool, meant for a row that was there, is never given
      }
    }

    /** `_import_tool_registry` */
    method ImportToolRegistry(tools: seq<Tool>)
      modifies this
      ensures Contents() == ImportAll(old(Contents()), tools)
      ensures Imported(old(Contents()), tools, Assigned(old(Contents()), tools), Contents())
    {
      ghost var start := Contents();
      ImportExact(start, tools);
      hide ImportTool, Assigned, Imported;
      for i := 0 to |tools|
        invariant Contents() == ImportAll(start, tools[..i])
      {
        assert tools[..i + 1][..i] == tools[..i];
        Import(tools[i]);
      }
      assert tools[..|tools|] == tools;
    }
  }
}
