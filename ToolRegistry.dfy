/** The back end's tool registry (backend/core/tools.py): a constant map from
    registry name to tool, and the lookup that turns a scheme's list of tool
    names into tool objects. The tools' bodies are not part of this model;
    a tool is represented by which registry entry it is. */
module ToolRegistry {

  datatype Tool = DuckDuckGoSearch | RetrieveDocuments | PythonCalculator

  /** TOOL_MAP */
  const ToolMap: map<string, Tool> := map[
    "duckduckgo_search" := DuckDuckGoSearch,
    "retrieve_documents" := RetrieveDocuments,
    "calculator" := PythonCalculator]

  /** get_tools_by_names: the registered tools for the names that are
      registered, in the order of `names`; unknown names are skipped. */
  function GetToolsByNames(names: seq<string>): (r: seq<Tool>)
    ensures |r| <= |names|
    ensures forall t :: t in r ==> exists n :: n in names && n in ToolMap && ToolMap[n] == t
    ensures forall n :: n in names && n in ToolMap ==> ToolMap[n] in r
  {
    if names == [] then []
    else if names[0] in ToolMap then [ToolMap[names[0]]] + GetToolsByNames(names[1..])
    else GetToolsByNames(names[1..])
  }

  /** The lookup distributes over concatenation: results follow the order of the names. */
  lemma {:induction false} GetToolsAppend(a: seq<string>, b: seq<string>)
    ensures GetToolsByNames(a + b) == GetToolsByNames(a) + GetToolsByNames(b)
  {
    if a == [] {
      assert a + b == b;
    } else {
      assert (a + b)[1..] == a[1..] + b;
      GetToolsAppend(a[1..], b);
    }
  }

  /** When every name is registered, the i-th result is the i-th name's tool;
      a repeated name therefore gives a repeated tool. */
  lemma {:induction false} AllRegistered(names: seq<string>)
    requires forall i :: 0 <= i < |names| ==> names[i] in ToolMap
    ensures |GetToolsByNames(names)| == |names|
    ensures forall i :: 0 <= i < |names| ==> GetToolsByNames(names)[i] == ToolMap[names[i]]
  {
    if names != [] {
      AllRegistered(names[1..]);
    }
  }

  /** With no registered name, the lookup yields nothing; in particular `[]` yields `[]`. */
  lemma {:induction false} NoneRegistered(names: seq<string>)
    requires forall i :: 0 <= i < |names| ==> names[i] !in ToolMap
    ensures GetToolsByNames(names) == []
  {
    if names != [] {
      NoneRegistered(names[1..]);
    }
  }

  /** The registry holds exactly three names. The front end's search tool id
      `duckduckgo` is not one of them, so it resolves to nothing, and the
      default team scheme's tools resolve to the calculator alone. */
  lemma RegistryKeys()
    ensures ToolMap.Keys == {"duckduckgo_search", "retrieve_documents", "calculator"}
    ensures "duckduckgo" !in ToolMap
    ensures GetToolsByNames(["duckduckgo"]) == []
    ensures GetToolsByNames(["duckduckgo", "calculator"]) == [PythonCalculator]
  {
    assert "duckduckgo" != "duckduckgo_search";
    assert ["duckduckgo", "calculator"][1..] == ["calculator"];
    assert ["calculator"][1..] == [];
  }
}
