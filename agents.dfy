/**
 * What PDFGameFactory does with the replies of its agents, the model calls
 * themselves being left to the caller: the extractor's summary shaping, the
 * reviewer's verdict projection and the builder's template resolution.
 */
module Agents {
  import opened Wrappers
  import opened Collections
  import opened JsonValue
  import opened Text
  import Fences

  // ---------------- Agent 1: extractor ----------------

  const ExcerptLength: nat := 8000
  const FullMarkdownKey: string := "full_markdown"

  /** markdown_text[:8000], the part of the document the extractor's prompt embeds. */
  function DocumentExcerpt(markdown: string): (r: string)
    ensures |r| == if |markdown| < ExcerptLength then |markdown| else ExcerptLength
    ensures StartsWith(markdown, r)
  {
    if |markdown| <= ExcerptLength then markdown else markdown[..ExcerptLength]
  }

  /**
   * agent_1_extractor once the document has been converted (or not): a failed
   * conversion is re-raised; otherwise the model's reply to the excerpt is parsed
   * and full_markdown is set on the parsed dict, whatever the parse gave.
   */
  function Summarize(converted: Result<string, string>, reply: string -> string, decode: Decoder): (r: Result<Object, string>)
    ensures converted.Failure? ==> r == Failure(converted.error)
    ensures converted.Success? ==> r.Success? && r.value != map[]
    ensures converted.Success? ==>
      FullMarkdownKey in r.value && r.value[FullMarkdownKey] == JStr(converted.value)
    ensures converted.Success? ==>
      var parsed := Fences.ExtractJson(decode, reply(DocumentExcerpt(converted.value)));
      forall k :: k in parsed && k != FullMarkdownKey ==> k in r.value && r.value[k] == parsed[k]
    ensures converted.Success? ==>
      var parsed := Fences.ExtractJson(decode, reply(DocumentExcerpt(converted.value)));
      forall k :: k in r.value ==> k == FullMarkdownKey || k in parsed
  {
    match converted
    case Failure(e) => Failure(e)
    case Success(markdown) =>
      var parsed := Fences.ExtractJson(decode, reply(DocumentExcerpt(markdown)));
      var summary := parsed[FullMarkdownKey := JStr(markdown)];
      assert FullMarkdownKey in summary;
      Success(summary)
  }

  // ---------------- Agent 3: reviewer ----------------

  /** The (approved, feedback) pair agent_3_reviewer returns, both taken verbatim from the dict. */
  datatype Verdict = Verdict(approved: Json, feedback: Json)

  const NoFeedback: string := "No feedback provided"

  /** review.get('approved', False), review.get('feedback', 'No feedback provided'). */
  function ReviewVerdict(review: Object): (v: Verdict)
    ensures "approved" in review ==> v.approved == review["approved"]
    ensures "approved" !in review ==> v.approved == JBool(false) && !Truthy(v.approved)
    ensures "feedback" in review ==> v.feedback == review["feedback"]
    ensures "feedback" !in review ==> v.feedback == JStr(NoFeedback)
  {
    Verdict(Get(review, "approved", JBool(false)), Get(review, "feedback", JStr(NoFeedback)))
  }

  /**
   * agent_3_reviewer given the model's reply text: the verdict of the decoded
   * dict, or a rejection with the generic feedback when the reply does not decode
   * (fail closed).
   */
  function Review(decode: Decoder, reply: string): (v: Verdict)
    ensures decode(Fences.StripFences(reply)) == None ==>
      v == Verdict(JBool(false), JStr(NoFeedback)) && !Truthy(v.approved)
    ensures decode(Fences.StripFences(reply)).Some? ==>
      v == ReviewVerdict(decode(Fences.StripFences(reply)).value)
  {
    ReviewVerdict(Fences.ExtractJson(decode, reply))
  }

  // ---------------- Agent 5: builder ----------------

  /** A file of the templates/ directory, in directory listing order. */
  datatype Entry = Entry(name: string, content: string)

  const TemplateDir: string := "templates"
  const TemplateSuffix: string := "_game.html"
  const DefaultGameType: string := "matching"
  const NoTemplatesHint: string :=
    "No templates found in templates/ directory.\n" +
    "Please ensure matching_game.html, quiz_game.html, and flashcards_game.html are in the templates/ folder."

  /**
   * f'{game_type}' for game_structure.get('game_type', 'matching'); a non-string
   * value is rendered by Python's str(), which the caller supplies as format.
   */
  function GameTypeText(gs: Object, format: Json -> string): (t: string)
    ensures "game_type" !in gs ==> t == DefaultGameType
    ensures "game_type" in gs && gs["game_type"].JStr? ==> t == gs["game_type"].s
    ensures "game_type" in gs && !gs["game_type"].JStr? ==> t == format(gs["game_type"])
  {
    var v := Get(gs, "game_type", JStr(DefaultGameType));
    if v.JStr? then v.s else format(v)
  }

  /** <game_type>_game.html */
  function TemplateFile(gs: Object, format: Json -> string): (name: string)
    ensures EndsWith(name, TemplateSuffix)
    ensures "game_type" !in gs ==> name == "matching_game.html"
    ensures "game_type" in gs && gs["game_type"].JStr? ==> name == gs["game_type"].s + TemplateSuffix
  {
    var name := GameTypeText(gs, format) + TemplateSuffix;
    assert name[|name| - |TemplateSuffix|..] == TemplateSuffix;
    name
  }

  /** template_dir / f'{game_type}_game.html': a file of templates/ named after the game type. */
  function TemplatePath(gs: Object, format: Json -> string): (path: string)
    ensures StartsWith(path, TemplateDir + "/") && EndsWith(path, TemplateSuffix)
    ensures path[|TemplateDir| + 1..] == TemplateFile(gs, format)
  {
    var name := TemplateFile(gs, format);
    AppendParts(TemplateDir + "/", name);
    EndsWithSuffix(TemplateDir + "/", name, TemplateSuffix);
    TemplateDir + "/" + name
  }

  /** The content of the first entry called name, if any. */
  function Lookup(dir: seq<Entry>, name: string): (r: Option<string>)
    ensures r == None <==> forall i :: 0 <= i < |dir| ==> dir[i].name != name
    ensures r.Some? ==> exists i :: 0 <= i < |dir| && dir[i] == Entry(name, r.value)
  {
    if dir == [] then None
    else if dir[0].name == name then Some(dir[0].content)
    else
      var r := Lookup(dir[1..], name);
      assert forall i :: 1 <= i < |dir| ==> dir[i] == dir[1..][i - 1];
      r
  }

  /** [t.name for t in template_dir.glob('*.html')], in listing order. */
  function HtmlNames(dir: seq<Entry>): (r: seq<string>)
    ensures forall n :: n in r ==> EndsWith(n, ".html")
    ensures forall i :: 0 <= i < |dir| && EndsWith(dir[i].name, ".html") ==> dir[i].name in r
    ensures forall n :: n in r ==> exists i :: 0 <= i < |dir| && dir[i].name == n
  {
    if dir == [] then []
    else
      var rest := HtmlNames(dir[1..]);
      assert forall i :: 1 <= i < |dir| ==> dir[i] == dir[1..][i - 1];
      if EndsWith(dir[0].name, ".html") then [dir[0].name] + rest else rest
  }

  /** repr() of one name inside a printed list. */
  function Quoted(name: string): string {
    "'" + name + "'"
  }

  /** Python's repr of a list of names, without the brackets: quoted names separated by ", ". */
  function JoinQuoted(names: seq<string>): (r: string)
    ensures r == [] <==> names == []
    ensures names != [] ==> r[0] == '\'' && r[|r| - 1] == '\''
  {
    if names == [] then ""
    else if |names| == 1 then Quoted(names[0])
    else Quoted(names[0]) + ", " + JoinQuoted(names[1..])
  }

  /** Python's repr of a list of names. */
  function ListRepr(names: seq<string>): (r: string)
    ensures |r| == |JoinQuoted(names)| + 2
    ensures StartsWith(r, "[") && EndsWith(r, "]")
    ensures r[1..|r| - 1] == JoinQuoted(names)
  {
    var j := JoinQuoted(names);
    Bracketed("[", j, "]");
    "[" + j + "]"
  }

  /** Every name of the list is printed in its repr. */
  lemma {:induction false} JoinQuotedNames(names: seq<string>, n: string)
    requires n in names
    ensures Contains(JoinQuoted(names), Quoted(n))
    decreases |names|
  {
    ContainsSelf(Quoted(n));
    if |names| == 1 {
    } else if names[0] == n {
      ContainsLeft(Quoted(n), ", " + JoinQuoted(names[1..]), Quoted(n));
      assert Quoted(n) + ", " + JoinQuoted(names[1..]) == Quoted(n) + (", " + JoinQuoted(names[1..]));
    } else {
      JoinQuotedNames(names[1..], n);
      ContainsRight(Quoted(names[0]) + ", ", JoinQuoted(names[1..]), Quoted(n));
    }
  }

  /** The message of the FileNotFoundError agent_5_builder raises. */
  function NotFoundMessage(path: string, available: seq<string>): (msg: string)
    ensures StartsWith(msg, "Template not found: " + path + "\n\n")
    ensures available == [] ==> EndsWith(msg, NoTemplatesHint)
    ensures available != [] ==> EndsWith(msg, "]")
    ensures available != [] ==> EndsWith(msg, "Available templates: " + ListRepr(available))
  {
    var head := "Template not found: " + path + "\n\n";
    var tail := if available != [] then "Available templates: " + ListRepr(available) else NoTemplatesHint;
    AppendParts(head, tail);
    EndsWithAppend(head, tail);
    EndsWithSuffix(head, tail, if available != [] then "]" else NoTemplatesHint);
    head + tail
  }

  /** The message names every available template. */
  lemma NotFoundMessageContents(path: string, available: seq<string>)
    ensures forall n :: n in available ==> Contains(NotFoundMessage(path, available), Quoted(n))
  {
    var head := "Template not found: " + path + "\n\n";
    var msg := NotFoundMessage(path, available);
    if available != [] {
      var list := ListRepr(available);
      var j := JoinQuoted(available);
      Assoc("[", j, "]");
      forall n | n in available
        ensures Contains(msg, Quoted(n))
      {
        JoinQuotedNames(available, n);
        ContainsLeft(j, "]", Quoted(n));
        ContainsRight("[", j + "]", Quoted(n));
        ContainsRight("Available templates: ", list, Quoted(n));
        ContainsRight(head, "Available templates: " + list, Quoted(n));
      }
    }
  }

  /**
   * agent_5_builder: resolve templates/<game_type>_game.html in the directory
   * listing; render it (Template(content).render(**game_structure), supplied as
   * render) or raise FileNotFoundError with the diagnostic message.
   */
  function Build(gs: Object, dir: seq<Entry>, format: Json -> string, render: (string, Object) -> string): (r: Result<string, string>)
    ensures r.Failure? <==> forall i :: 0 <= i < |dir| ==> dir[i].name != TemplateFile(gs, format)
    ensures r.Success? ==>
      exists i :: 0 <= i < |dir| && dir[i].name == TemplateFile(gs, format) && r.value == render(dir[i].content, gs)
    ensures r.Failure? ==> r.error == NotFoundMessage(TemplatePath(gs, format), HtmlNames(dir))
  {
    match Lookup(dir, TemplateFile(gs, format))
    case Some(content) => Success(render(content, gs))
    case None => Failure(NotFoundMessage(TemplatePath(gs, format), HtmlNames(dir)))
  }
}
