/** The configuration object: its setters, its reader loop and its writer loop. */
module GoConfigFile {
  import opened Text
  import opened ConfigTable
  import G = GoConfig

  lemma KeysFrom(c: G.Config, section: string, keys: seq<string>, j: nat, pretty: bool)
    requires j < |keys| && G.Keys(c, section, keys[j..])
    ensures section in c.data && keys[j] in c.data[section] && keys[j] != "" && G.Keys(c, section, keys[j + 1..])
    ensures G.KeysText(c, section, keys[j..], pretty)
            == G.KeyText(c, section, keys[j], pretty) + G.KeysText(c, section, keys[j + 1..], pretty)
  {
    var ks := keys[j..];
    assert ks[0] == keys[j] && ks[0] in ks && ks[1..] == keys[j + 1..];
    assert forall k :: k in ks[1..] ==> k in ks;
  }

  class ConfigFile {
    var data: map<string, map<string, string>>
    var sectionList: seq<string>
    var keyList: map<string, seq<string>>
    var sectionComments: map<string, string>
    var keyComments: map<string, map<string, string>>

    function Value(): G.Config
      reads this
    {
      Table(data, sectionList, keyList, sectionComments, keyComments)
    }

    constructor ()
      ensures Value() == Empty()
    {
      data, sectionList, keyList, sectionComments, keyComments := map[], [], map[], map[], map[];
    }

    method SetValue(section: string, key: string, value: string) returns (inserted: bool)
      modifies this
      ensures Value() == G.SetValue(old(Value()), section, key, value)
      ensures inserted <==> key != "" && !old(Value()).HasKey(G.SectionName(section), key)
      ensures key != "" ==> Value().HasKey(G.SectionName(section), key)
    {
      var s := G.SectionName(section);
      if key == "" { return false; }
      if s !in data {
        data := data[s := map[]];
        sectionList := sectionList + [s];
      }
      inserted := key !in data[s];
      data := data[s := data[s][key := value]];
      if inserted {
        keyList := keyList[s := (if s in keyList then keyList[s] else []) + [key]];
      }
    }

    method SetSectionComments(section: string, comments: string)
      modifies this
      ensures Value() == G.SetSectionComments(old(Value()), section, comments)
    {
      var s := G.SectionName(section);
      if comments == "" {
        sectionComments := sectionComments - {s};
      } else {
        sectionComments := sectionComments[s := G.Commented(comments)];
      }
    }

    method SetKeyComments(section: string, key: string, comments: string)
      modifies this
      ensures Value() == G.SetKeyComments(old(Value()), section, key, comments)
    {
      var s := G.SectionName(section);
      if s in keyComments {
        if comments == "" {
          keyComments := keyComments[s := keyComments[s] - {key}];
          return;
        }
      } else {
        if comments == "" { return; }
        keyComments := keyComments[s := map[]];
      }
      keyComments := keyComments[s := keyComments[s][key := G.Commented(comments)]];
    }

    /** An entry line: the key, numbered if it is `-`, its value, and the comments collected for it. */
    method ReadEntry(line: string, section: string, count: nat, comments: string) returns (ok: bool, count': nat)
      requires line != ""
      modifies this
      ensures var r := G.ReadEntry(G.Reader(old(Value()), section, count, comments), line);
              if ok then r == G.Ok(G.Reader(Value(), section, count', "")) else r.Err? && Value() == old(Value()) == r.st.cfg
    {
      count' := count;
      var split := G.SplitKey(line);
      if split.None? { return false, count'; }
      var (key, i) := split.value;
      var value := G.ReadValue(Trim(line[i + 1..]));
      if value.None? { return false, count'; }
      assert EntryIs(G.Reader(Value(), section, count, comments), line, key, value.value);
      count' := StoreEntry(key, value.value, section, count, comments);
      ok := true;
    }

    /** The line stores the value under the key. */
    static ghost predicate EntryIs(st: G.Reader, line: string, written: string, value: string)
      requires line != ""
    {
      G.ReadEntry(st, line) == G.Ok(G.Store(st, written, value))
    }

    /** Stores an entry; `written` is its key before it is numbered. */
    method StoreEntry(written: string, value: string, section: string, count: nat, comments: string) returns (count': nat)
      modifies this
      ensures G.Reader(Value(), section, count', "") == G.Store(G.Reader(old(Value()), section, count, comments), written, value)
    {
      var key := written;
      count' := count;
      if key == "-" {
        key := "#" + Decimal(count);
        count' := count + 1;
      }
      var _ := SetValue(section, key, value);
      if comments != "" {
        SetKeyComments(section, key, comments);
      }
    }

    /** One trimmed line. */
    method ReadLine(line: string, section: string, count: nat, comments: string)
      returns (ok: bool, section': string, count': nat, comments': string)
      modifies this
      ensures var r := G.ReadLine(G.Reader(old(Value()), section, count, comments), line);
              && ok == r.Ok? && Value() == r.st.cfg
              && (ok ==> r.st == G.Reader(Value(), section', count', comments'))
    {
      ok, section', count', comments' := true, section, count, comments;
      if line == "" {
      } else if line[0] == '#' || line[0] == ';' {
        comments' := if comments == "" then line else comments + "\n" + line;
      } else if line[0] == '[' && line[|line| - 1] == ']' {
        section' := Trim(line[1..|line| - 1]);
        if comments != "" {
          SetSectionComments(section', comments);
        }
        var _ := SetValue(section', G.KEEPER, " ");
        count', comments' := 1, "";
      } else if section == "" {
        ok := false;
      } else {
        ok, count' := ReadEntry(line, section, count, comments);
        comments' := "";
      }
    }

    /** The reader loop: on an error the object keeps what was read before it. */
    method Read(text: string) returns (ok: bool)
      modifies this
      ensures var r := G.Read(old(Value()), text); Value() == r.st.cfg && ok == r.Ok?
    {
      var rest := if text != "" && text[0] == G.BOM then text[1..] else text;
      var section, count, comments := G.DEFAULT_SECTION, 1, "";
      ghost var all := G.Read(old(Value()), text);
      var k := IndexChar(rest, '\n');
      while k >= 0
        invariant k == IndexChar(rest, '\n')
        invariant all == G.ReadText(G.Reader(Value(), section, count, comments), rest)
        decreases |rest|
      {
        ok, section, count, comments := ReadLine(Trim(rest[..k]), section, count, comments);
        if !ok { return; }
        rest := rest[k + 1..];
        k := IndexChar(rest, '\n');
      }
      ok, section, count, comments := ReadLine(Trim(rest), section, count, comments);
    }

    method SaveKey(section: string, key: string, pretty: bool) returns (text: string)
      requires section in data && key in data[section] && key != ""
      ensures text == G.KeyText(Value(), section, key, pretty)
    {
      text := "";
      if key != G.KEEPER {
        var comments := G.GetKeyComments(Value(), section, key);
        if comments != "" { text := comments + "\n"; }
        text := text + (G.WriteKey(key) + G.EqualSign(pretty) + G.WriteValue(data[section][key]) + "\n");
      }
    }

    /** The keys of a section, in list order. */
    method SaveKeys(section: string, pretty: bool) returns (text: string)
      requires section in keyList && G.Keys(Value(), section, keyList[section])
      ensures text == G.KeysText(Value(), section, keyList[section], pretty)
    {
      text := "";
      var keys := keyList[section];
      ghost var c := Value();
      var j := 0;
      while j < |keys|
        invariant 0 <= j <= |keys|
        invariant G.Keys(c, section, keys[j..])
        invariant text + G.KeysText(c, section, keys[j..], pretty) == G.KeysText(c, section, keys, pretty)
      {
        KeysFrom(c, section, keys, j, pretty);
        var entry := SaveKey(section, keys[j], pretty);
        Assoc(text, entry, G.KeysText(c, section, keys[j + 1..], pretty));
        text := text + entry;
        j := j + 1;
      }
    }

    method SaveSection(section: string, pretty: bool) returns (text: string)
      requires section in keyList && G.Keys(Value(), section, keyList[section])
      ensures text == G.SectionText(Value(), section, pretty)
    {
      var comments := G.GetSectionComments(Value(), section);
      text := if comments != "" then comments + "\n" else "";
      ghost var before := text;
      var header := if section != G.DEFAULT_SECTION then "[" + section + "]" + "\n" else "";
      var keys := SaveKeys(section, pretty);
      Assoc(before, header, keys + "\n");
      text := text + header + (keys + "\n");
    }

    /** The sections, in list order. */
    method Save(pretty: bool) returns (text: string)
      requires G.Sections(Value(), sectionList)
      ensures text == G.Save(Value(), pretty)
    {
      text := "";
      ghost var c := Value();
      var i := 0;
      while i < |sectionList|
        invariant 0 <= i <= |sectionList|
        invariant G.Sections(c, sectionList[i..])
        invariant text + G.SectionsText(c, sectionList[i..], pretty) == G.Save(c, pretty)
      {
        assert sectionList[i..][0] == sectionList[i] && sectionList[i..][1..] == sectionList[i + 1..];
        assert forall s :: s in sectionList[i + 1..] ==> s in sectionList[i..];
        var section := SaveSection(sectionList[i], pretty);
        Assoc(text, section, G.SectionsText(c, sectionList[i + 1..], pretty));
        text := text + section;
        i := i + 1;
      }
    }
  }
}
