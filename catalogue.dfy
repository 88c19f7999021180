/** The tool catalogue: the MCP tool descriptors turned into the function
    declarations offered to the model with every completion request. */
module Catalogue {
  import opened Types

  /** The declaration of one tool: its name, description and input schema,
      passed through unchanged. */
  function Declare(tool: ToolDescriptor): (d: FunctionDeclaration)
    ensures d.name == tool.name
  {
    FunctionDeclaration(tool.name, tool.description, tool.inputSchema)
  }

  /** The descriptor a declaration was made from. */
  function Describe(d: FunctionDeclaration): ToolDescriptor
  {
    ToolDescriptor(d.name, d.description, d.parameters)
  }

  /** The catalogue of a tool list: one declaration per tool, in order. */
  function Build(tools: seq<ToolDescriptor>): (decls: seq<FunctionDeclaration>)
    ensures |decls| == |tools|
  {
    if tools == [] then [] else [Declare(tools[0])] + Build(tools[1..])
  }

  /** The `i`-th declaration carries the name, the description and the input
      schema of the `i`-th tool. */
  lemma {:induction false} BuildAt(tools: seq<ToolDescriptor>, i: nat)
    requires i < |tools|
    ensures Build(tools)[i].name == tools[i].name
    ensures Build(tools)[i].description == tools[i].description
    ensures Build(tools)[i].parameters == tools[i].inputSchema
  {
    if i > 0 {
      BuildAt(tools[1..], i - 1);
    }
  }

  /** Undoing the catalogue, declaration by declaration. */
  function Describes(decls: seq<FunctionDeclaration>): (tools: seq<ToolDescriptor>)
    ensures |tools| == |decls|
  {
    if decls == [] then [] else [Describe(decls[0])] + Describes(decls[1..])
  }

  /** Nothing of a tool is lost in its declaration: the tool list can be
      recovered from the catalogue. */
  lemma {:induction false} BuildRoundTrip(tools: seq<ToolDescriptor>)
    ensures Describes(Build(tools)) == tools
  {
    if tools != [] {
      BuildRoundTrip(tools[1..]);
    }
  }

  /** Building is order preserving: the catalogue of a concatenation is the
      concatenation of the catalogues. */
  lemma {:induction false} BuildAppend(a: seq<ToolDescriptor>, b: seq<ToolDescriptor>)
    ensures Build(a + b) == Build(a) + Build(b)
  {
    if a == [] {
      assert a + b == b;
    } else {
      assert (a + b)[0] == a[0] && (a + b)[1..] == a[1..] + b;
      BuildAppend(a[1..], b);
    }
  }

  /** Two tool lists with the same catalogue are the same list. */
  lemma {:induction false} BuildInjective(a: seq<ToolDescriptor>, b: seq<ToolDescriptor>)
    requires Build(a) == Build(b)
    ensures a == b
  {
    BuildRoundTrip(a);
    BuildRoundTrip(b);
  }
}
