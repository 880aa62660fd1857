/// The free-text filter: the text being edited, whether the editor is
/// active, and the cached result of compiling the text with the external
/// query-language compiler.
module Filter {
  import opened Base
  import opened Models

  /// A compiled filter program, observed only through whether it yields any
  /// output when run on a value (the `select(...)` idiom).
  datatype CompiledFilter = CompiledFilter(yieldsOutput: Json -> bool)

  /// The external compiler: program text to a filter or an error message.
  type Compiler = string -> Result<CompiledFilter, string>

  /// The matching rule: without a compiled filter everything matches, an
  /// item that fails to serialise matches, and otherwise the filter decides.
  function Matches(compiled: Option<CompiledFilter>, item: Option<Json>): bool {
    match compiled
    case None => true
    case Some(f) =>
      match item
      case None => true
      case Some(v) => f.yieldsOutput(v)
  }

  /// An empty or failed filter keeps every item.
  lemma NoFilterMatchesAll(item: Option<Json>)
    ensures Matches(None, item)
  {
  }

  /// An item that cannot be serialised is kept whatever the filter.
  lemma UnserialisableMatches(compiled: Option<CompiledFilter>)
    ensures Matches(compiled, None)
  {
  }

  class FilterState {
    var active: bool
    var input: string
    var error: Option<string>
    var compiled: Option<CompiledFilter>

    /// A compiled filter and a compile error are never held together.
    ghost predicate Valid()
      reads this
    {
      !(compiled.Some? && error.Some?)
    }

    /// `FilterState::default()`.
    constructor ()
      ensures Valid()
      ensures !active && input == "" && error == None && compiled == None
    {
      active := false;
      input := "";
      error := None;
      compiled := None;
    }

    method Enter()
      modifies this
      ensures active
      ensures input == old(input) && error == old(error) && compiled == old(compiled)
    {
      active := true;
    }

    /// Leaving the editor keeps the text and the compiled filter, so the
    /// filter stays applied.
    method Exit()
      modifies this
      ensures !active
      ensures input == old(input) && error == old(error) && compiled == old(compiled)
    {
      active := false;
    }

    method Clear()
      modifies this
      ensures Valid()
      ensures input == "" && error == None && compiled == None && !active
    {
      input := "";
      error := None;
      compiled := None;
      active := false;
    }

    /// Replaces the text by what the input widget made of a key press.
    method SetInput(text: string)
      modifies this
      ensures input == text
      ensures active == old(active) && error == old(error) && compiled == old(compiled)
    {
      input := text;
    }

    /// The cached filter is what compiling the current text gives: nothing
    /// for an empty text, otherwise the filter or the compiler's message.
    ghost predicate CompiledFrom(compile: Compiler)
      reads this
    {
      if input == "" then compiled == None && error == None
      else match compile(input)
        case Ok(f) => compiled == Some(f) && error == None
        case Err(e) => compiled == None && error == Some(e)
    }

    /// Compiles the current text once, caching the outcome.
    method Recompile(compile: Compiler)
      modifies this
      ensures Valid()
      ensures active == old(active) && input == old(input)
      ensures input == "" ==> compiled == None && error == None
      ensures input != "" && compile(input).Ok? ==>
        compiled == Some(compile(input).value) && error == None
      ensures input != "" && compile(input).Err? ==>
        compiled == None && error == Some(compile(input).error)
    {
      if input == "" {
        error := None;
        compiled := None;
      } else {
        match compile(input)
        case Ok(f) =>
          error := None;
          compiled := Some(f);
        case Err(e) =>
          error := Some(e);
          compiled := None;
      }
    }

    /// `is_match` on an item already put through serialisation.
    function IsMatch(item: Option<Json>): (r: bool)
      reads this
      ensures compiled.None? ==> r
      ensures item.None? ==> r
    {
      Matches(compiled, item)
    }
  }
}
