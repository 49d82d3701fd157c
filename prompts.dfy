/** src/hurag_webui/prompts.py: `create_rag_prompt`, which renders each
    retrieved knowledge segment as a numbered Markdown block and substitutes
    the blocks, separated by blank lines, and the user's query into a fixed
    template. A relevance score is kept as its `{score:.4f}` text. */
module Prompts {
  import opened Wrappers
  import opened Text
  import opened CitationModel

  /** A relevance score, as its four-decimal rendering. */
  datatype Score = Score(fixed4: string)

  /** One entry of `knowledge_list`: a segment and its score. */
  datatype Scored = Scored(knowledge: Knowledge, score: Score)

  /** `RAG_PROMPT_TEMPLATE` up to its `{knowledge_segments}` field. */
  const TemplateHead: string :=
    "你是一名知识库问答助手，能够根据提供的相关知识段，准确且简洁地回答用户的问题。\n"
    + "\n"
    + "## 任务\n"
    + "\n"
    + "现已提供一组与用户问题相关的知识片段，每个片段包含知识内容、文档元数据和相关性分数，相关性分数越高表示与问题越相关。\n"
    + "\n"
    + "文档元数据包含文档标题、发布日期、生效/废止时间、文号、发布机构路径、上一版本、上位版本等信息。\n"
    + "\n"
    + "请基于这些知识段，结合你的语言理解能力，生成对用户问题的回答。\n"
    + "\n"
    + "## 回答要求\n"
    + "\n"
    + "请遵循以下要求进行回答：\n"
    + "1. **内容依据**：必须基于上述知识段内容和文档元数据作答，不得编造或引入外部知识。\n"
    + "2. **元数据考量**：回答时务必考虑文档的时效性（生效/废止日期）、版本关系（上位版本、替代版本）和权威性（法令号、发布路径）。\n"
    + "3. **不确定性处理**：若知识不足以回答问题，明确说明\"根据提供的资料无法确定\"。\n"
    + "4. **版本意识**：若存在多个版本，以最新有效版本为准；若提及被废止文件，需明确标注其已废止。\n"
    + "5. **简洁专业**：回答应准确、简洁、友好，必要时可给出简要背景解释，但不得虚构。\n"
    + "\n"
    + "## 知识段\n"
    + "\n"
    + "以下是为你检索到的知识段：\n"
    + "\n"

  /** The template between its two fields. */
  const TemplateMiddle: string :=
    "\n"
    + "\n"
    + "请基于上述知识回答用户的问题。\n"
    + "\n"
    + "## 用户问题\n"
    + "\n"
    + "以下是用户提出的问题：\n"
    + "\n"

  /** The template after its `{query}` field. */
  const TemplateTail: string := "\n\n## 请回答：\n"

  /** `RAG_PROMPT_TEMPLATE.format(knowledge_segments=..., query=...)`. */
  function Fill(segments: string, query: string): string {
    TemplateHead + segments + TemplateMiddle + query + TemplateTail
  }

  /** The separator of the rendered blocks. */
  const BlankLine: string := "\n\n"

  /** `kn_limit` is truthy: neither `None` nor 0. */
  predicate LimitSet(knLimit: Option<int>) {
    knLimit.Some? && knLimit.value != 0
  }

  /** `knowledge_list[:kn_limit] if kn_limit else knowledge_list`. */
  function Selected(knowledgeList: seq<Scored>, knLimit: Option<int>): seq<Scored> {
    if LimitSet(knLimit) then Take(knowledgeList, knLimit.value) else knowledgeList
  }

  /** A positive limit keeps the first `kn_limit` segments (all of them when
      there are fewer), a negative one drops that many from the end, and no
      limit keeps everything. */
  lemma SelectedSpec(knowledgeList: seq<Scored>, knLimit: Option<int>)
    ensures var r := Selected(knowledgeList, knLimit);
      r == knowledgeList[..|r|]
      && (!LimitSet(knLimit) ==> r == knowledgeList)
      && (LimitSet(knLimit) && knLimit.value > 0 ==>
            |r| == if knLimit.value < |knowledgeList| then knLimit.value else |knowledgeList|)
      && (LimitSet(knLimit) && knLimit.value < 0 ==>
            |r| == if |knowledgeList| + knLimit.value < 0 then 0 else |knowledgeList| + knLimit.value)
  {
  }

  /** A limit at least as large as the list is no limit. */
  lemma LargeLimitKeepsAll(query: string, knowledgeList: seq<Scored>, k: int)
    requires k >= |knowledgeList| && k != 0
    ensures RagPrompt(query, knowledgeList, Some(k)) == RagPrompt(query, knowledgeList, None)
  {
    assert SliceIndex(k, |knowledgeList|) == |knowledgeList|;
    assert Take(knowledgeList, k) == knowledgeList;
  }

  /** A string is truthy when it is neither `None` nor empty. */
  predicate Truthy(v: Option<string>) {
    v.Some? && v.value != []
  }

  /** `v if v else '无'`. */
  function OrNone(v: Option<string>): string {
    if Truthy(v) then v.value else "无"
  }

  /** `f"{valid_to:%Y-%m-%d}" if valid_to else "未废止"`. */
  function ValidTo(d: Option<Date>): string {
    if d.Some? then d.value.ymd else "未废止"
  }

  /** The values a block shows, each already rendered as text, in the
      order of its lines. */
  datatype BlockFields = BlockFields(number: nat, content: string, score: string, title: string,
                                     sn: string, date: string, validFrom: string, validTo: string,
                                     supersedes: string, localizes: string, pubPath: string)

  const HeaderPrefix: string := "### 知识段 "

  /** The first line of block number `n`. */
  function Header(n: nat): string {
    HeaderPrefix + NatToString(n) + "\n"
  }

  /** The f-string of one block. */
  function Render(f: BlockFields): string {
    Header(f.number) + Body(f)
  }

  /** The lines after the header. */
  function Body(f: BlockFields): string {
    "- **内容**: " + f.content + "\n"
    + "- **相关性分数**: " + f.score + "\n"
    + "- **文档元数据**: \n"
    + "  - **文档标题**: " + f.title + "\n"
    + "  - **法令号/文号**: " + f.sn + "\n"
    + "  - **发布日期**: " + f.date + "\n"
    + "  - **生效日期**: " + f.validFrom + "\n"
    + "  - **废止日期**: " + f.validTo + "\n"
    + "  - **上一版本**: " + f.supersedes + "\n"
    + "  - **上位版本**: " + f.localizes + "\n"
    + "  - **发布机构路径**: " + f.pubPath
  }

  /** `None.strip()`. */
  const NoContent := AttributeError("strip")
  /** Formatting `None` with a date format. */
  const NoDate := TypeError("unsupported format string passed to NoneType.__format__")

  /** The block of entry `idx`: its content must be present (it is
      stripped first), and so must its publication and validity dates. */
  function Block(idx: nat, item: Scored): (r: Result<BlockFields>)
    ensures r.Err? <==> item.knowledge.content.None? || item.knowledge.metadata.date.None?
                        || item.knowledge.metadata.validFrom.None?
  {
    var k := item.knowledge;
    var m := k.metadata;
    if k.content.None? then Err(NoContent)
    else if m.date.None? || m.validFrom.None? then Err(NoDate)
    else Ok(BlockFields(idx + 1, Strip(k.content.value), item.score.fixed4, Show(m.title), OrNone(m.sn),
                        m.date.value.ymd, m.validFrom.value.ymd, ValidTo(m.validTo),
                        OrNone(m.supersedes), OrNone(m.localizes), Show(m.pubPath)))
  }

  /** The blocks of the first `n` entries in list order; the first entry
      that cannot be rendered raises. */
  function Blocks(items: seq<Scored>, n: nat): Result<seq<BlockFields>>
    requires n <= |items|
  {
    if n == 0 then Ok([])
    else
      match Blocks(items, n - 1)
      case Err(e) => Err(e)
      case Ok(front) =>
        match Block(n - 1, items[n - 1])
        case Err(e) => Err(e)
        case Ok(b) => Ok(front + [b])
  }

  /** The entries render exactly when each of them does. */
  lemma {:induction false} BlocksOk(items: seq<Scored>, n: nat)
    requires n <= |items|
    ensures Blocks(items, n).Ok? <==> forall i :: 0 <= i < n ==> Block(i, items[i]).Ok?
  {
    if n > 0 {
      BlocksOk(items, n - 1);
      assert Blocks(items, n).Ok? <==> Blocks(items, n - 1).Ok? && Block(n - 1, items[n - 1]).Ok?;
    }
  }

  /** Every entry yields exactly its own block, in order. */
  lemma {:induction false} BlocksValues(items: seq<Scored>, n: nat)
    requires n <= |items| && Blocks(items, n).Ok?
    ensures |Blocks(items, n).value| == n
    ensures forall i :: 0 <= i < n ==> Block(i, items[i]) == Ok(Blocks(items, n).value[i])
  {
    if n > 0 {
      BlocksValues(items, n - 1);
    }
  }

  /** When some entry cannot be rendered, the error is that of the first
      such entry. */
  lemma {:induction false} BlocksFirstError(items: seq<Scored>, n: nat)
    requires n <= |items| && Blocks(items, n).Err?
    ensures exists i :: (0 <= i < n && Block(i, items[i]).Err? && Blocks(items, n).error == Block(i, items[i]).error
                         && forall j :: 0 <= j < i ==> Block(j, items[j]).Ok?)
  {
    if Blocks(items, n - 1).Err? {
      BlocksFirstError(items, n - 1);
    } else {
      BlocksOk(items, n - 1);
      assert Block(n - 1, items[n - 1]).Err?;
    }
  }

  /** Once an entry fails, later entries do not change the outcome. */
  lemma {:induction false} BlocksErrSticks(items: seq<Scored>, k: nat, n: nat)
    requires k <= n <= |items| && Blocks(items, k).Err?
    ensures Blocks(items, n) == Blocks(items, k)
    decreases n
  {
    if k < n {
      BlocksErrSticks(items, k, n - 1);
    }
  }

  /** `create_rag_prompt(query, knowledge_list, kn_limit)`. */
  function RagPrompt(query: string, knowledgeList: seq<Scored>, knLimit: Option<int>): Result<string> {
    PromptOf(query, Selected(knowledgeList, knLimit))
  }

  /** The prompt for the selected entries. */
  function PromptOf(query: string, items: seq<Scored>): Result<string> {
    match Blocks(items, |items|)
    case Err(e) => Err(e)
    case Ok(blocks) => Ok(Fill(Join(BlankLine, Rendered(blocks)), query))
  }

  /** The rendered blocks, in order. */
  function Rendered(blocks: seq<BlockFields>): seq<string> {
    if blocks == [] then [] else Rendered(blocks[..|blocks| - 1]) + [Render(blocks[|blocks| - 1])]
  }

  /** An empty selection gives the template with an empty segments
      section. */
  lemma EmptyKnowledge(query: string, knowledgeList: seq<Scored>, knLimit: Option<int>)
    requires Selected(knowledgeList, knLimit) == []
    ensures RagPrompt(query, knowledgeList, knLimit) == Ok(TemplateHead + TemplateMiddle + query + TemplateTail)
  {
    assert TemplateHead + [] == TemplateHead;
  }

  /** Entry `idx` is numbered `idx + 1`. */
  lemma BlockNumbered(idx: nat, item: Scored)
    requires Block(idx, item).Ok?
    ensures StartsWith(Render(Block(idx, item).value), Header(idx + 1))
  {
    var r := Render(Block(idx, item).value);
    assert r[..|Header(idx + 1)|] == Header(idx + 1);
  }

  /** Blocks with different numbers differ, whatever their segments hold. */
  lemma HeadersDistinct(f: BlockFields, g: BlockFields)
    requires f.number != g.number
    ensures Render(f) != Render(g)
  {
    var p := NatToString(f.number);
    var q := NatToString(g.number);
    assert p != q by {
      if p == q {
        NatToStringInjective(f.number, g.number);
      }
    }
    DigitsThenNewline(p, q, Body(f), Body(g));
    PrefixCancels(HeaderPrefix, p + "\n" + Body(f), q + "\n" + Body(g));
    RenderSplit(f);
    RenderSplit(g);
  }

  lemma RenderSplit(f: BlockFields)
    ensures Render(f) == HeaderPrefix + (NatToString(f.number) + "\n" + Body(f))
  {
  }

  lemma PrefixCancels(pre: string, a: string, b: string)
    requires a != b
    ensures pre + a != pre + b
  {
    assert (pre + a)[|pre|..] == a;
    assert (pre + b)[|pre|..] == b;
  }

  /** Two different numerals, each followed by a line break, start two
      different strings. */
  lemma DigitsThenNewline(p: string, q: string, x: string, y: string)
    requires p != q
    requires forall i :: 0 <= i < |p| ==> '0' <= p[i] <= '9'
    requires forall i :: 0 <= i < |q| ==> '0' <= q[i] <= '9'
    ensures p + "\n" + x != q + "\n" + y
  {
    var a := p + "\n" + x;
    var b := q + "\n" + y;
    if |p| < |q| {
      assert a[|p|] == '\n' && b[|p|] == q[|p|];
    } else if |q| < |p| {
      assert b[|q|] == '\n' && a[|q|] == p[|q|];
    } else {
      var k :| 0 <= k < |p| && p[k] != q[k];
      assert a[k] == p[k] && b[k] == q[k];
    }
  }

  /** The entry with `field` replaced. */
  function WithSn(item: Scored, sn: Option<string>): Scored {
    item.(knowledge := item.knowledge.(metadata := item.knowledge.metadata.(sn := sn)))
  }

  function WithReplaces(item: Scored, v: Option<string>): Scored {
    item.(knowledge := item.knowledge.(metadata := item.knowledge.metadata.(supersedes := v)))
  }

  function WithLocalizes(item: Scored, v: Option<string>): Scored {
    item.(knowledge := item.knowledge.(metadata := item.knowledge.metadata.(localizes := v)))
  }

  function WithValidTo(item: Scored, v: Option<Date>): Scored {
    item.(knowledge := item.knowledge.(metadata := item.knowledge.metadata.(validTo := v)))
  }

  function WithContent(item: Scored, v: Option<string>): Scored {
    item.(knowledge := item.knowledge.(content := v))
  }

  /** A missing or empty document number, predecessor or parent renders as
      if it were `无`, and a missing repeal date as if it were the text
      `未废止`. */
  lemma MissingFieldsDefault(idx: nat, item: Scored)
    ensures !Truthy(item.knowledge.metadata.sn) ==> Block(idx, item) == Block(idx, WithSn(item, Some("无")))
    ensures !Truthy(item.knowledge.metadata.supersedes) ==>
      Block(idx, item) == Block(idx, WithReplaces(item, Some("无")))
    ensures !Truthy(item.knowledge.metadata.localizes) ==>
      Block(idx, item) == Block(idx, WithLocalizes(item, Some("无")))
    ensures item.knowledge.metadata.validTo.None? ==>
      Block(idx, item) == Block(idx, WithValidTo(item, Some(Date("未废止"))))
  {
  }

  /** Only the stripped content is shown: surrounding whitespace makes no
      difference to the block. */
  lemma ContentStripped(idx: nat, item: Scored)
    requires item.knowledge.content.Some?
    ensures Block(idx, item) == Block(idx, WithContent(item, Some(Strip(item.knowledge.content.value))))
  {
    StripIdempotent(item.knowledge.content.value);
  }

  lemma RenderedStep(blocks: seq<BlockFields>, f: BlockFields)
    ensures Rendered(blocks + [f]) == Rendered(blocks) + [Render(f)]
  {
    assert (blocks + [f])[..|blocks|] == blocks;
  }

  /** `create_rag_prompt`: the loop over the selected entries. */
  method CreateRagPrompt(query: string, knowledgeList: seq<Scored>, knLimit: Option<int>)
    returns (r: Result<string>)
    ensures r == RagPrompt(query, knowledgeList, knLimit)
  {
    var items := if LimitSet(knLimit) then Take(knowledgeList, knLimit.value) else knowledgeList;
    assert items == Selected(knowledgeList, knLimit);
    var segments: seq<string> := [];
    ghost var blocks: seq<BlockFields> := [];
    var idx := 0;
    while idx < |items|
      invariant 0 <= idx <= |items|
      invariant Blocks(items, idx) == Ok(blocks) && segments == Rendered(blocks)
    {
      var item := items[idx];
      if item.knowledge.content.None? {
        assert Blocks(items, idx + 1) == Err(NoContent);
        BlocksErrSticks(items, idx + 1, |items|);
        return Err(NoContent);
      }
      var content := Strip(item.knowledge.content.value);
      var m := item.knowledge.metadata;
      if m.date.None? || m.validFrom.None? {
        assert Blocks(items, idx + 1) == Err(NoDate);
        BlocksErrSticks(items, idx + 1, |items|);
        return Err(NoDate);
      }
      var fields := BlockFields(idx + 1, content, item.score.fixed4, Show(m.title), OrNone(m.sn),
                                m.date.value.ymd, m.validFrom.value.ymd, ValidTo(m.validTo),
                                OrNone(m.supersedes), OrNone(m.localizes), Show(m.pubPath));
      assert Block(idx, item) == Ok(fields);
      assert Blocks(items, idx + 1) == Ok(blocks + [fields]);
      RenderedStep(blocks, fields);
      segments := segments + [Render(fields)];
      blocks := blocks + [fields];
      idx := idx + 1;
    }
    r := Ok(Fill(Join(BlankLine, segments), query));
  }
}
