/**
 The INI reader and writer. A configuration is kept in the tables of `ConfigTable`;
 the reader is a fold over trimmed lines, the writer a concatenation over sections.
 */
module GoConfig {
  import opened Basics
  import opened Text
  import opened ConfigTable

  type Config = Table<string, string, string>

  const DEFAULT_SECTION := "DEFAULT"

  /** The key that makes a section exist when it has no other key. */
  const KEEPER := " "

  const TRIPLE := "\"\"\""

  const BOM := '\U{FEFF}'

  // ---- the setters ----

  function SectionName(section: string): string {
    if section == "" then DEFAULT_SECTION else section
  }

  function SetValue(c: Config, section: string, key: string, value: string): Config {
    if key == "" then c else Put(c, SectionName(section), key, value)
  }

  /** A comment that does not look like one is made into one. */
  function Commented(comments: string): string {
    if comments != "" && comments[0] != '#' && comments[0] != ';' then "; " + comments else comments
  }

  function SetSectionComments(c: Config, section: string, comments: string): Config {
    var s := SectionName(section);
    if comments == "" then c.(sectionComments := c.sectionComments - {s})
    else PutSectionComment(c, s, Commented(comments))
  }

  function SetKeyComments(c: Config, section: string, key: string, comments: string): Config {
    var s := SectionName(section);
    if comments != "" then PutKeyComment(c, s, key, Commented(comments))
    else if s in c.keyComments then c.(keyComments := c.keyComments[s := c.keyComments[s] - {key}])
    else c
  }

  function GetSectionComments(c: Config, section: string): string {
    SectionComment(c, SectionName(section), "")
  }

  function GetKeyComments(c: Config, section: string, key: string): string {
    KeyComment(c, SectionName(section), key, "")
  }

  // ---- the reader ----

  datatype Reason = BlankSectionName | CouldNotParse

  datatype Reader = Reader(cfg: Config, section: string, count: nat, comments: string)

  /** The reader after some text; on an error it keeps what it has read so far. */
  datatype Outcome = Ok(st: Reader) | Err(st: Reader, reason: Reason, line: string)

  /** The quote that opens a key, if any. */
  function KeyQuote(line: string): (q: string)
    requires line != ""
    ensures |q| <= |line|
  {
    if line[0] == '"' then
      if ByteLen(line) >= 6 && At(line, TRIPLE, 0) then TRIPLE else "\""
    else if line[0] == '`' then "`"
    else ""
  }

  /** The key of a line, as written, and the position of the sign that ends it. */
  function SplitKey(line: string): (r: Option<(string, nat)>)
    requires line != ""
    ensures r.Some? ==> r.value.1 < |line|
  {
    var q := KeyQuote(line);
    if q != "" then
      var pos := Index(line[|q|..], q);
      if pos == -1 then None
      else
        var close := pos + |q|;
        var i := IndexSep(line[close..]);
        if i <= 0 then None else Some((line[|q|..close], i + close))
    else
      var i := IndexSep(line);
      if i <= 0 then None else Some((Trim(line[..i]), i))
  }

  /** The value behind the sign, without its quotes. */
  function ReadValue(right: string): Option<string> {
    var quote :=
      if ByteLen(right) >= 2 && right != "" && right[0] == '`' then "`"
      else if ByteLen(right) >= 6 && At(right, TRIPLE, 0) then TRIPLE
      else "";
    if quote == "" then Some(Trim(right))
    else
      var pos := LastIndex(right[|quote|..], quote);
      if pos == -1 then None else Some(right[|quote|..pos + |quote|])
  }

  /** The auto-increment key `-` stands for the next number of the section. */
  function NumberedKey(key: string, count: nat): string {
    if key == "-" then "#" + Decimal(count) else key
  }

  /** The reader once it has stored an entry; `written` is the key before it is numbered. */
  function Store(st: Reader, written: string, value: string): Reader {
    var key := NumberedKey(written, st.count);
    var cfg := SetValue(st.cfg, st.section, key, value);
    st.(cfg := if st.comments != "" then SetKeyComments(cfg, st.section, key, st.comments) else cfg,
        count := if written == "-" then st.count + 1 else st.count,
        comments := "")
  }

  function ReadEntry(st: Reader, line: string): Outcome
    requires line != ""
  {
    match SplitKey(line)
    case None => Err(st, CouldNotParse, line)
    case Some((written, i)) =>
      match ReadValue(Trim(line[i + 1..]))
      case None => Err(st.(count := if written == "-" then st.count + 1 else st.count), CouldNotParse, line)
      case Some(value) => Ok(Store(st, written, value))
  }

  predicate IsComment(line: string) {
    line != "" && (line[0] == '#' || line[0] == ';')
  }

  predicate IsHeader(line: string) {
    line != "" && line[0] == '[' && line[|line| - 1] == ']'
  }

  /** One trimmed line. */
  function ReadLine(st: Reader, line: string): Outcome {
    if line == "" then Ok(st)
    else if IsComment(line) then
      Ok(st.(comments := if st.comments == "" then line else st.comments + "\n" + line))
    else if IsHeader(line) then
      var section := Trim(line[1..|line| - 1]);
      var cfg := if st.comments != "" then SetSectionComments(st.cfg, section, st.comments) else st.cfg;
      Ok(Reader(SetValue(cfg, section, KEEPER, " "), section, 1, ""))
    else if st.section == "" then Err(st, BlankSectionName, line)
    else ReadEntry(st, line)
  }

  /** The text, line by line; the last line need not end in a line break. */
  function ReadText(st: Reader, text: string): Outcome
    decreases |text|
  {
    var k := IndexChar(text, '\n');
    if k < 0 then ReadLine(st, Trim(text))
    else
      var r := ReadLine(st, Trim(text[..k]));
      if r.Err? then r else ReadText(r.st, text[k + 1..])
  }

  function WithoutBom(text: string): string {
    if text != "" && text[0] == BOM then text[1..] else text
  }

  function Read(c: Config, text: string): Outcome {
    ReadText(Reader(c, DEFAULT_SECTION, 1, ""), WithoutBom(text))
  }

  // ---- the writer ----

  function WriteKey(key: string): string
    requires key != ""
  {
    var name := if key[0] == '#' then "-" else key;
    if !HasSep(name) then name
    else if '`' !in name then "`" + name + "`"
    else if '"' in name then TRIPLE + name + TRIPLE
    else "\"" + name + "\""
  }

  function WriteValue(value: string): string {
    if '`' !in value then value
    else if '"' in value then TRIPLE + value + TRIPLE
    else "\"" + value + "\""
  }

  function EqualSign(pretty: bool): string {
    if pretty then " = " else "="
  }

  function CommentText(comment: string): string {
    if comment == "" then "" else comment + "\n"
  }

  function KeyText(c: Config, section: string, key: string, pretty: bool): string
    requires section in c.data && key in c.data[section] && key != ""
  {
    if key == KEEPER then ""
    else
      CommentText(GetKeyComments(c, section, key))
      + (WriteKey(key) + EqualSign(pretty) + WriteValue(c.data[section][key]) + "\n")
  }

  ghost predicate Keys(c: Config, section: string, keys: seq<string>) {
    section in c.data && forall k :: k in keys ==> k != "" && k in c.data[section]
  }

  function KeysText(c: Config, section: string, keys: seq<string>, pretty: bool): string
    requires Keys(c, section, keys)
    decreases |keys|
  {
    if keys == [] then ""
    else
      assert keys[0] in keys && forall k :: k in keys[1..] ==> k in keys;
      KeyText(c, section, keys[0], pretty) + KeysText(c, section, keys[1..], pretty)
  }

  function HeaderText(section: string): string {
    if section != DEFAULT_SECTION then "[" + section + "]" + "\n" else ""
  }

  function SectionText(c: Config, section: string, pretty: bool): string
    requires section in c.keyList && Keys(c, section, c.keyList[section])
  {
    CommentText(GetSectionComments(c, section)) + (HeaderText(section)
    + (KeysText(c, section, c.keyList[section], pretty) + "\n"))
  }

  ghost predicate Sections(c: Config, sections: seq<string>) {
    forall s :: s in sections ==> s in c.keyList && Keys(c, s, c.keyList[s])
  }

  function SectionsText(c: Config, sections: seq<string>, pretty: bool): string
    requires Sections(c, sections)
    decreases |sections|
  {
    if sections == [] then ""
    else
      assert sections[0] in sections && forall s :: s in sections[1..] ==> s in sections;
      SectionText(c, sections[0], pretty) + SectionsText(c, sections[1..], pretty)
  }

  /** The text that `SaveConfigFile` writes. */
  function Save(c: Config, pretty: bool): string
    requires Sections(c, c.sectionList)
  {
    SectionsText(c, c.sectionList, pretty)
  }
}
