/** The `.PKGINFO` control record: the text that `GenerateControlData` renders
    from the package context through its fixed template. */
module Control {
  import opened Common
  import opened Text

  datatype ControlRecord = ControlRecord(
    packageName: string,
    version: string,
    epoch: nat,
    installedSize: int64,
    description: string,
    licenses: seq<string>,   // the License of each Copyright entry, in order
    depends: seq<string>,    // the runtime dependencies, in order
    dataHash: string)

  /** The expansion of one `{{- range}}` block whose body is a line break
      followed by `<key>{{ item }}`, with the line break before `{{- end}}`
      trimmed away. */
  function Ranged(key: string, items: seq<string>): string
  {
    if items == [] then "" else OnNewLine(key + items[0]) + Ranged(key, items[1..])
  }

  /** The rendered template, line by line. The template text opens with a
      line break and ends with one; every `{{-` trims the line break in front
      of it, so each license and dependency adds exactly one line. */
  function Render(c: ControlRecord): string
  {
    OnNewLine("# Generated by melange.")
    + OnNewLine("pkgname = " + c.packageName)
    + OnNewLine("pkgver = " + c.version + "-r" + Decimal(c.epoch))
    + OnNewLine("arch = x86_64")
    + OnNewLine("size = " + SignedDecimal(c.installedSize))
    + OnNewLine("pkgdesc = " + c.description)
    + Ranged("license = ", c.licenses)
    + Ranged("depend = ", c.depends)
    + OnNewLine("datahash = " + c.dataHash)
    + OnNewLine("")
  }

  function Keyed(key: string, items: seq<string>): (r: seq<string>)
    ensures |r| == |items|
    ensures forall i :: 0 <= i < |items| ==> r[i] == key + items[i]
  {
    seq(|items|, i requires 0 <= i < |items| => key + items[i])
  }

  /** The lines of the record after its leading empty line, in the order the
      record fixes: comment, name, version, architecture, size, description,
      one license line per license, one depend line per dependency, the data
      hash, and the empty line after the final line break. */
  function RecordLines(c: ControlRecord): (r: seq<string>)
    ensures |r| == 8 + |c.licenses| + |c.depends|
    ensures r[0] == "# Generated by melange."
    ensures r[1] == "pkgname = " + c.packageName
    ensures r[2] == "pkgver = " + c.version + "-r" + Decimal(c.epoch)
    ensures r[3] == "arch = x86_64"
    ensures r[4] == "size = " + SignedDecimal(c.installedSize)
    ensures r[5] == "pkgdesc = " + c.description
    ensures forall i :: 0 <= i < |c.licenses| ==> r[6 + i] == "license = " + c.licenses[i]
    ensures forall i :: 0 <= i < |c.depends| ==> r[6 + |c.licenses| + i] == "depend = " + c.depends[i]
    ensures r[|r| - 2] == "datahash = " + c.dataHash
    ensures r[|r| - 1] == ""
  {
    HeaderLines(c)
    + Keyed("license = ", c.licenses)
    + Keyed("depend = ", c.depends)
    + ["datahash = " + c.dataHash, ""]
  }

  /** No field value breaks a line. */
  predicate SingleLineFields(c: ControlRecord)
  {
    && '\n' !in c.packageName
    && '\n' !in c.version
    && '\n' !in c.description
    && '\n' !in c.dataHash
    && (forall i :: 0 <= i < |c.licenses| ==> '\n' !in c.licenses[i])
    && (forall i :: 0 <= i < |c.depends| ==> '\n' !in c.depends[i])
  }

  lemma {:induction false} RangedIsPrefixed(key: string, items: seq<string>)
    ensures Ranged(key, items) == Prefixed(Keyed(key, items))
  {
    if items != [] {
      RangedIsPrefixed(key, items[1..]);
      assert Keyed(key, items)[1..] == Keyed(key, items[1..]);
    }
  }

  lemma PrefixedSix(l0: string, l1: string, l2: string, l3: string, l4: string, l5: string)
    ensures Prefixed([l0, l1, l2, l3, l4, l5])
         == OnNewLine(l0) + OnNewLine(l1) + OnNewLine(l2) + OnNewLine(l3) + OnNewLine(l4) + OnNewLine(l5)
  {
    PrefixedSnoc([], l0);
    assert [] + [l0] == [l0];
    PrefixedSnoc([l0], l1);
    assert [l0] + [l1] == [l0, l1];
    PrefixedSnoc([l0, l1], l2);
    assert [l0, l1] + [l2] == [l0, l1, l2];
    PrefixedSnoc([l0, l1, l2], l3);
    assert [l0, l1, l2] + [l3] == [l0, l1, l2, l3];
    PrefixedSnoc([l0, l1, l2, l3], l4);
    assert [l0, l1, l2, l3] + [l4] == [l0, l1, l2, l3, l4];
    PrefixedSnoc([l0, l1, l2, l3, l4], l5);
    assert [l0, l1, l2, l3, l4] + [l5] == [l0, l1, l2, l3, l4, l5];
  }

  /** The fixed lines before the first `{{- range}}`. */
  function HeaderLines(c: ControlRecord): seq<string>
  {
    ["# Generated by melange.",
     "pkgname = " + c.packageName,
     "pkgver = " + c.version + "-r" + Decimal(c.epoch),
     "arch = x86_64",
     "size = " + SignedDecimal(c.installedSize),
     "pkgdesc = " + c.description]
  }

  /** Lines joined in blocks give the blocks' texts joined. */
  lemma PrefixedBlocks(head: seq<string>, lic: seq<string>, dep: seq<string>, last: string)
    ensures Prefixed(head + lic + dep + [last, ""])
         == Prefixed(head) + Prefixed(lic) + Prefixed(dep) + OnNewLine(last) + OnNewLine("")
  {
    var blocks := head + lic + dep;
    assert Prefixed(blocks) == Prefixed(head) + Prefixed(lic) + Prefixed(dep) by {
      PrefixedAppend(head, lic);
      PrefixedAppend(head + lic, dep);
    }
    PrefixedSnoc(blocks, last);
    PrefixedSnoc(blocks + [last], "");
    assert blocks + [last] + [""] == blocks + [last, ""];
  }

  /** The rendered text is exactly the record's lines, each behind a line
      break. */
  lemma RenderIsPrefixedLines(c: ControlRecord)
    ensures Render(c) == Prefixed(RecordLines(c))
  {
    var head := HeaderLines(c);
    var lic := Keyed("license = ", c.licenses);
    var dep := Keyed("depend = ", c.depends);
    PrefixedBlocks(head, lic, dep, "datahash = " + c.dataHash);
    RangedIsPrefixed("license = ", c.licenses);
    RangedIsPrefixed("depend = ", c.depends);
    PrefixedSix(head[0], head[1], head[2], head[3], head[4], head[5]);
  }

  lemma NoBreakJoin(a: string, b: string)
    requires '\n' !in a && '\n' !in b
    ensures '\n' !in a + b
  {
    assert forall i :: 0 <= i < |a + b| ==> (a + b)[i] == if i < |a| then a[i] else b[i - |a|];
  }

  /** No header line holds a line break when no field value does. */
  lemma HeaderSingleLine(c: ControlRecord)
    requires SingleLineFields(c)
    ensures forall i :: 0 <= i < 6 ==> '\n' !in HeaderLines(c)[i]
  {
    var d := Decimal(c.epoch);
    assert '\n' !in d by {
      assert forall i :: 0 <= i < |d| ==> IsDigit(d[i]);
    }
    var h := HeaderLines(c);
    assert '\n' !in h[1] by {
      NoBreakJoin("pkgname = ", c.packageName);
    }
    assert '\n' !in h[2] by {
      NoBreakJoin("pkgver = ", c.version);
      NoBreakJoin("pkgver = " + c.version, "-r");
      NoBreakJoin("pkgver = " + c.version + "-r", d);
    }
    assert '\n' !in h[4] by {
      SignedDecimalRoundTrip(c.installedSize);
      NoBreakJoin("size = ", SignedDecimal(c.installedSize));
    }
    assert '\n' !in h[5] by {
      NoBreakJoin("pkgdesc = ", c.description);
    }
  }

  /** Read back line by line, the record is an empty first line followed by
      `RecordLines(c)`: the fields in the fixed order, one line each. */
  lemma RenderLines(c: ControlRecord)
    requires SingleLineFields(c)
    ensures Lines(Render(c)) == [""] + RecordLines(c)
  {
    var ls := RecordLines(c);
    assert Render(c) == "" + Prefixed(ls) by {
      RenderIsPrefixedLines(c);
    }
    assert forall i :: 0 <= i < |ls| ==> '\n' !in ls[i] by {
      HeaderSingleLine(c);
      forall i | 0 <= i < |ls|
        ensures '\n' !in ls[i]
      {
        if i < 6 {
          assert ls[i] == HeaderLines(c)[i];
        } else if i < 6 + |c.licenses| {
          NoBreakJoin("license = ", c.licenses[i - 6]);
        } else if i < 6 + |c.licenses| + |c.depends| {
          NoBreakJoin("depend = ", c.depends[i - 6 - |c.licenses|]);
        } else if i == |ls| - 2 {
          NoBreakJoin("datahash = ", c.dataHash);
        }
      }
    }
    LinesPrefixed("", ls);
  }
}
