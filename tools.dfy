/**
 * Custom tools: the registry `cfg.custom_tools`, a dict from a tag template
 * to a callback kept in insertion order (agentuse.py:61, 81-92), and the
 * derivation of a tool's start and end tags from its template, used by the
 * dispatcher's scan (agentuse.py:291-298).
 */
module Tools {
  import opened Wrappers
  import opened Text

  /** What a callback does with the text between the tags: returns a value, or raises. */
  datatype CallResult = Returned(text: string) | Raised(reason: string)

  /** A caller-supplied callback, seen only through its result. */
  type Callback = string -> CallResult

  datatype Tool = Tool(format: string, callback: Callback)

  /** The registered templates, in the order the dict iterates them. */
  function Formats(tools: seq<Tool>): (r: seq<string>)
    ensures |r| == |tools|
    ensures forall i :: 0 <= i < |tools| ==> r[i] == tools[i].format
  {
    seq(|tools|, i requires 0 <= i < |tools| => tools[i].format)
  }

  /** A dict has each key once. */
  predicate UniqueFormats(tools: seq<Tool>) {
    forall i, j :: 0 <= i < j < |tools| ==> tools[i].format != tools[j].format
  }

  function IndexFrom(tools: seq<Tool>, format: string, i: nat): (r: Option<nat>)
    requires i <= |tools|
    ensures r.Some? ==> i <= r.value < |tools| && tools[r.value].format == format
    ensures r.Some? ==> forall j :: i <= j < r.value ==> tools[j].format != format
    ensures r.None? ==> forall j :: i <= j < |tools| ==> tools[j].format != format
    decreases |tools| - i
  {
    if i == |tools| then None
    else if tools[i].format == format then Some(i)
    else IndexFrom(tools, format, i + 1)
  }

  /** The position of a template in the registry. */
  function IndexOf(tools: seq<Tool>, format: string): (r: Option<nat>)
    ensures r.Some? ==> r.value < |tools| && tools[r.value].format == format
    ensures r.Some? ==> forall j :: 0 <= j < r.value ==> tools[j].format != format
    ensures r.None? <==> format !in Formats(tools)
  {
    IndexFrom(tools, format, 0)
  }

  /** `cfg.custom_tools.get(format)` */
  function Lookup(tools: seq<Tool>, format: string): Option<Callback> {
    match IndexOf(tools, format)
    case Some(i) => Some(tools[i].callback)
    case None => None
  }

  /** `cfg.custom_tools[format] = callback`: a known key keeps its place, a new one goes last. */
  function Put(tools: seq<Tool>, format: string, callback: Callback): seq<Tool> {
    match IndexOf(tools, format)
    case Some(i) => tools[i := Tool(format, callback)]
    case None => tools + [Tool(format, callback)]
  }

  /** `cfg.custom_tools.pop(format, None)`: removes the key if present. */
  function Pop(tools: seq<Tool>, format: string): seq<Tool> {
    match IndexOf(tools, format)
    case Some(i) => tools[..i] + tools[i + 1..]
    case None => tools
  }

  /** Registering keeps one entry per template: a known template keeps its place, a new one goes last. */
  lemma PutFormats(tools: seq<Tool>, format: string, callback: Callback)
    requires UniqueFormats(tools)
    ensures UniqueFormats(Put(tools, format, callback))
    ensures Formats(Put(tools, format, callback))
         == if format in Formats(tools) then Formats(tools) else Formats(tools) + [format]
  {
    var r := Put(tools, format, callback);
    match IndexOf(tools, format)
    case Some(i) =>
      assert r == tools[i := Tool(format, callback)];
      assert Formats(r) == Formats(tools);
    case None =>
      assert r == tools + [Tool(format, callback)];
      assert Formats(r) == Formats(tools) + [format];
  }

  /** After registering, the template gives the new callback and every other template keeps its own. */
  lemma PutLookup(tools: seq<Tool>, format: string, callback: Callback)
    requires UniqueFormats(tools)
    ensures Lookup(Put(tools, format, callback), format) == Some(callback)
    ensures forall g :: g != format ==> Lookup(Put(tools, format, callback), g) == Lookup(tools, g)
  {
    var r := Put(tools, format, callback);
    PutFormats(tools, format, callback);
    match IndexOf(tools, format)
    case Some(i) =>
      IndexOfAt(r, format, i);
    case None =>
      IndexOfAt(r, format, |tools|);
    forall g | g != format
      ensures Lookup(r, g) == Lookup(tools, g)
    {
      match IndexOf(tools, g)
      case Some(i) =>
        assert r[i] == tools[i];
        IndexOfAt(r, g, i);
      case None =>
        assert g !in Formats(r);
    }
  }

  /** Removing a template that is not registered changes nothing. */
  lemma PopAbsent(tools: seq<Tool>, format: string)
    requires format !in Formats(tools)
    ensures Pop(tools, format) == tools
  {
  }

  /** Removing deletes exactly that template's entry, and the others keep their order. */
  lemma PopFormats(tools: seq<Tool>, format: string)
    requires UniqueFormats(tools)
    ensures UniqueFormats(Pop(tools, format))
    ensures format !in Formats(Pop(tools, format))
    ensures format in Formats(tools) ==>
      exists i :: 0 <= i <= |Pop(tools, format)|
               && Formats(tools) == Formats(Pop(tools, format))[..i] + [format] + Formats(Pop(tools, format))[i..]
  {
    var r := Pop(tools, format);
    match IndexOf(tools, format)
    case None =>
    case Some(i) =>
      assert forall k :: 0 <= k < i ==> r[k] == tools[k];
      assert forall k :: i <= k < |r| ==> r[k] == tools[k + 1];
      assert Formats(tools) == Formats(r)[..i] + [format] + Formats(r)[i..];
  }

  /** In a registry with unique templates, a template's position is where it is found. */
  lemma IndexOfAt(tools: seq<Tool>, format: string, j: nat)
    requires UniqueFormats(tools) && j < |tools| && tools[j].format == format
    ensures IndexOf(tools, format) == Some(j)
  {
    assert Formats(tools)[j] == format;
  }

  /** After removal the template is unknown, and every other template keeps its callback. */
  lemma PopLookup(tools: seq<Tool>, format: string)
    requires UniqueFormats(tools)
    ensures Lookup(Pop(tools, format), format) == None
    ensures forall g :: g != format ==> Lookup(Pop(tools, format), g) == Lookup(tools, g)
  {
    PopFormats(tools, format);
    var r := Pop(tools, format);
    match IndexOf(tools, format)
    case None =>
    case Some(i) =>
      assert r == tools[..i] + tools[i + 1..];
      forall g | g != format
        ensures Lookup(r, g) == Lookup(tools, g)
      {
        match IndexOf(tools, g)
        case Some(j) =>
          var j' := if j < i then j else j - 1;
          assert r[j'] == tools[j];
          IndexOfAt(r, g, j');
        case None =>
          assert g !in Formats(r);
      }
  }

  /** Registering a new template and removing it again restores the registry. */
  lemma PopAfterPut(tools: seq<Tool>, format: string, callback: Callback)
    requires format !in Formats(tools)
    ensures Pop(Put(tools, format, callback), format) == tools
  {
    var r := Put(tools, format, callback);
    assert r == tools + [Tool(format, callback)];
    assert Formats(r)[|tools|] == format;
    assert IndexOf(r, format) == Some(|tools|);
    assert r[..|tools|] == tools;
  }

  /** The later of two registrations of one template wins. */
  lemma PutTwice(tools: seq<Tool>, format: string, a: Callback, b: Callback)
    ensures Put(Put(tools, format, a), format, b) == Put(tools, format, b)
  {
    var r := Put(tools, format, a);
    match IndexOf(tools, format)
    case Some(i) =>
      assert Formats(r)[i] == format;
      assert IndexOf(r, format) == Some(i);
    case None =>
      assert Formats(r)[|tools|] == format;
      assert IndexOf(r, format) == Some(|tools|);
  }

  /** `tool_format.split(">")[0]` */
  function Head(format: string): string {
    Before(format, '>')
  }

  /** `">" in tool_format and "</" in tool_format`: only such templates are tried. */
  predicate Eligible(format: string) {
    '>' in format && Contains(format, "</")
  }

  /** The name can be derived: the head has a `<`, else `split("<")[1]` raises. */
  predicate Derivable(format: string) {
    Eligible(format) ==> '<' in Head(format)
  }

  predicate AllDerivable(tools: seq<Tool>) {
    forall i :: 0 <= i < |tools| ==> Derivable(tools[i].format)
  }

  /** `start_tag`: the template up to and including its first `>`. */
  function StartTag(format: string): (r: string)
    requires '>' in format
    ensures |r| == |Head(format)| + 1 && StartsWith(format, r)
    ensures r[|r| - 1] == '>' && '>' !in r[..|r| - 1]
  {
    Head(format) + ">"
  }

  /** `tool_format.split(">")[0].split("<")[1]`: between the first `<` of the head and the next `<`. */
  function TagName(format: string): (r: string)
    requires '<' in Head(format)
    ensures '<' !in r && '>' !in r
  {
    Before(After(Head(format), '<'), '<')
  }

  /** `end_tag` */
  function EndTag(format: string): string
    requires '<' in Head(format)
  {
    "</" + TagName(format) + ">"
  }

  /** The test a directive passes to go to this tool. */
  predicate Matches(format: string, cmd: string)
    requires Derivable(format)
  {
    Eligible(format) && StartsWith(cmd, StartTag(format)) && EndsWith(cmd, EndTag(format))
  }

  /** `cmd[len(start_tag):-len(end_tag)]`, the text the callback receives. */
  function ToolInput(format: string, cmd: string): string
    requires Eligible(format) && Derivable(format)
  {
    SliceInner(cmd, |StartTag(format)|, |EndTag(format)|)
  }

  /** The first tool, from position `i` on, whose tags match `cmd`. */
  function FirstMatchFrom(tools: seq<Tool>, cmd: string, i: nat): Option<nat>
    requires AllDerivable(tools) && i <= |tools|
    decreases |tools| - i
  {
    if i == |tools| then None
    else if Matches(tools[i].format, cmd) then Some(i)
    else FirstMatchFrom(tools, cmd, i + 1)
  }

  /** The scan from `i` stops at a matching tool with no match before it, or finds none. */
  lemma {:induction false} FirstMatchFromSpec(tools: seq<Tool>, cmd: string, i: nat)
    requires AllDerivable(tools) && i <= |tools|
    ensures var r := FirstMatchFrom(tools, cmd, i);
      && (r.Some? ==> i <= r.value < |tools| && Matches(tools[r.value].format, cmd))
      && (r.Some? ==> forall j :: i <= j < r.value ==> !Matches(tools[j].format, cmd))
      && (r.None? ==> forall j :: i <= j < |tools| ==> !Matches(tools[j].format, cmd))
    decreases |tools| - i
  {
    if i < |tools| && !Matches(tools[i].format, cmd) {
      assert FirstMatchFrom(tools, cmd, i) == FirstMatchFrom(tools, cmd, i + 1);
      FirstMatchFromSpec(tools, cmd, i + 1);
      var r := FirstMatchFrom(tools, cmd, i + 1);
      if r.Some? {
        forall j | i <= j < r.value
          ensures !Matches(tools[j].format, cmd)
        {
          if j > i {
            assert i + 1 <= j < r.value;
          }
        }
      } else {
        forall j | i <= j < |tools|
          ensures !Matches(tools[j].format, cmd)
        {
          if j > i {
            assert i + 1 <= j < |tools|;
          }
        }
      }
    }
  }

  /** The tool the scan in registration order stops at. */
  function FirstMatch(tools: seq<Tool>, cmd: string): (r: Option<nat>)
    requires AllDerivable(tools)
    ensures r.Some? ==> r.value < |tools| && Matches(tools[r.value].format, cmd)
    ensures r.Some? ==> forall j :: 0 <= j < r.value ==> !Matches(tools[j].format, cmd)
    ensures r.None? ==> forall j :: 0 <= j < |tools| ==> !Matches(tools[j].format, cmd)
  {
    FirstMatchFromSpec(tools, cmd, 0);
    FirstMatchFrom(tools, cmd, 0)
  }

  /** `<name>body</name>`: the usual shape of a template, and of a directive meant for its tool. */
  function Tagged(name: string, body: string): string {
    "<" + name + ">" + body + "</" + name + ">"
  }

  /** For that shape the tags are `<name>` and `</name>`. */
  lemma TemplateTags(name: string, description: string)
    requires '<' !in name && '>' !in name
    ensures var f := Tagged(name, description);
      Eligible(f) && Derivable(f) && StartTag(f) == "<" + name + ">" && EndTag(f) == "</" + name + ">"
  {
    var f := Tagged(name, description);
    var front := "<" + name;
    assert '>' !in front;
    assert f == front + ['>'] + (description + "</" + name + ">");
    BeforeFirst(front, '>', description + "</" + name + ">");
    assert Head(f) == front;
    assert OccursAt("</", "</" + name + ">", 0);
    OccursInContext("</", front + ">" + description, "</" + name + ">", [], 0);
    assert front + ">" + description + ("</" + name + ">") + [] == f;
    assert After(front, '<') == name;
    BeforeAbsent(name, '<');
  }

  /** A directive written in that shape is routed with exactly its interior. */
  lemma TemplateMatches(name: string, description: string, input: string)
    requires '<' !in name && '>' !in name
    ensures var f := Tagged(name, description);
      Derivable(f) && Eligible(f)
      && Matches(f, Tagged(name, input))
      && ToolInput(f, Tagged(name, input)) == input
  {
    TemplateTags(name, description);
    var st, et := "<" + name + ">", "</" + name + ">";
    var cmd := st + input + et;
    assert Tagged(name, input) == cmd;
    assert StartsWith(cmd, st) by { assert cmd[..|st|] == st; }
    assert EndsWith(cmd, et) by { assert cmd[|cmd| - |et|..] == et; }
    assert SliceInner(cmd, |st|, |et|) == input by { assert cmd[|st|..|cmd| - |et|] == input; }
  }

  /** The registry itself: the dict the module-level `add_tool` and `remove_tool` mutate. */
  class Config {
    var tools: seq<Tool>
    const instructions: Option<string>

    ghost predicate Valid()
      reads this
    {
      UniqueFormats(tools)
    }

    constructor (instructions: Option<string>)
      ensures Valid() && tools == [] && this.instructions == instructions
    {
      tools := [];
      this.instructions := instructions;
    }

    /** `add_tool` */
    method AddTool(format: string, callback: Callback)
      requires Valid()
      modifies this`tools
      ensures Valid()
      ensures tools == Put(old(tools), format, callback)
    {
      PutFormats(tools, format, callback);
      match IndexOf(tools, format)
      case Some(i) => tools := tools[i := Tool(format, callback)];
      case None => tools := tools + [Tool(format, callback)];
    }

    /** `remove_tool` */
    method RemoveTool(format: string)
      requires Valid()
      modifies this`tools
      ensures Valid()
      ensures tools == Pop(old(tools), format)
    {
      PopFormats(tools, format);
      match IndexOf(tools, format)
      case Some(i) => tools := tools[..i] + tools[i + 1..];
      case None =>
    }
  }
}
