/** The constant tables of src/hurag_webui/constants.py: the chat modes and
    the schema scripts that (re)create the relational store. The same script
    list appears a second time, identically, as `_INIT_RSS_SCRIPTS` in
    src/hurag_webui/dss/rss.py; it is defined once here. */
module Constants {
  import opened Wrappers

  /** `CHAT_MODES`: mode number to display name. */
  const ChatModes: map<int, string> :=
    map[0 := "日常", 1 := "专注", 2 := "精深", 3 := "沉思", 4 := "拓展"]

  /** `CHAT_MODE_RAG_MODES`: mode number to retrieval mode; `None` means no
      retrieval. */
  const ChatModeRagModes: map<int, Option<string>> :=
    map[0 := None, 1 := Some("naive"), 2 := Some("mix"), 3 := Some("community"), 4 := Some("global")]

  /** `CHAT_MODE_DESCRIPTIONS`: mode number to description. */
  const ChatModeDescriptions: map<int, string> :=
    map[0 := "专属模型的工作日常", 1 := "垂直领域的专业问答", 2 := "领域专家的精研深究",
        3 := "基于联想的深入思考", 4 := "发散思维的广泛探索"]

  lemma ModeTablesShareKeys()
    ensures ChatModes.Keys == ChatModeRagModes.Keys == ChatModeDescriptions.Keys == {0, 1, 2, 3, 4}
  {
  }

  /** Only mode 0 has no retrieval; modes 1 to 4 name four distinct
      retrieval modes. */
  lemma RagModesDistinct()
    ensures forall m :: m in ChatModeRagModes ==> (ChatModeRagModes[m].None? <==> m == 0)
    ensures forall m, n ::
      (m in ChatModeRagModes && n in ChatModeRagModes && m != n && m != 0 && n != 0
       ==> ChatModeRagModes[m] != ChatModeRagModes[n])
  {
  }

  /** One schema script: a `DROP TABLE IF EXISTS` or a `CREATE TABLE` with the
      tables its FOREIGN KEY clauses reference. */
  datatype Script = DropTable(table: string) | CreateTable(table: string, references: seq<string>)

  /** The statement text sent for a script. The column lists of the CREATE
      statements are abbreviated; only table names and foreign keys matter
      here. */
  function ScriptText(s: Script): string {
    match s
    case DropTable(t) => "DROP TABLE IF EXISTS " + t
    case CreateTable(t, _) => "CREATE TABLE " + t + " (…)"
  }

  /** `INIT_RSS_SCRIPTS`. */
  const InitRssScripts: seq<Script> := [
    DropTable("query_segments"),
    DropTable("session_messages"),
    DropTable("sessions"),
    DropTable("users"),
    CreateTable("users", []),
    CreateTable("sessions", ["users"]),
    CreateTable("session_messages", ["sessions"]),
    CreateTable("query_segments", ["session_messages"])
  ]

  /** All four DROPs come before all four CREATEs, and the tables are
      dropped in the reverse of the order in which they are created. */
  lemma DropsReverseCreates()
    ensures |InitRssScripts| == 8
    ensures forall i :: 0 <= i < 4 ==> InitRssScripts[i].DropTable?
    ensures forall i :: 4 <= i < 8 ==> InitRssScripts[i].CreateTable?
    ensures forall i :: 0 <= i < 4 ==> InitRssScripts[i].table == InitRssScripts[7 - i].table
  {
  }

  /** Every FOREIGN KEY references a table created earlier in the list. */
  lemma ForeignKeysReferenceEarlierTables()
    ensures forall i, r ::
      (0 <= i < |InitRssScripts| && InitRssScripts[i].CreateTable? && r in InitRssScripts[i].references
       ==> exists j :: 0 <= j < i && InitRssScripts[j].CreateTable? && InitRssScripts[j].table == r)
  {
    assert InitRssScripts[4] == CreateTable("users", []);
    assert InitRssScripts[5] == CreateTable("sessions", ["users"]);
    assert InitRssScripts[6] == CreateTable("session_messages", ["sessions"]);
  }
}
