/** Changes of mode that inspection and version control see differently: a capture that succeeds and
    says something else than what is recorded. */
module ModeChanges {
  import opened Prelude
  import opened TaskContracts
  import opened Workspace

  /** A tree of two files in its root. */
  function TwoFiles(a: File, b: File): Tree {
    map["run.sh" := Regular(a, 1, true), "notes.txt" := Regular(b, 1, true)]
  }

  lemma PlainEntry(name: string, f: File)
    requires name == "run.sh" || name == "notes.txt"
    ensures Allowed(name, Regular(f, 1, true)) && Readable(Regular(f, 1, true)) && ContractPath(name)
  {
    PlainName(name);
    assert FirstSlash(name) == |name| && Segments(name) == [name];
  }

  lemma TwoFilesInspectable(a: File, b: File, maxBytes: nat)
    requires |a.content| + |b.content| <= maxBytes
    ensures Inspectable(TwoFiles(a, b), maxBytes, maxBytes)
    ensures Contents(TwoFiles(a, b)) == map["run.sh" := a, "notes.txt" := b]
  {
    hide Allowed, RelativePath;
    var t := TwoFiles(a, b);
    PlainEntry("run.sh", a);
    PlainEntry("notes.txt", b);
    assert "run.sh" != "notes.txt";
    assert t.Keys == {"run.sh", "notes.txt"} && t.Keys - {"run.sh"} == {"notes.txt"} && {"notes.txt"} - {"notes.txt"} == {};
    SizeOfOne(t, t.Keys, "run.sh");
    SizeOfOne(t, {"notes.txt"}, "notes.txt");
    assert Contents(t).Keys == t.Keys;
    assert |Contents(t)| == |t.Keys| == 2;
  }

  /** The base of the examples: a program and a text, of which only the text may be changed. */
  function ExampleBase(program: seq<Byte>, text: seq<Byte>): Checkout {
    map["run.sh" := File(program, true, true), "notes.txt" := File(text, false, false)]
  }

  const EXAMPLE_PATHS: seq<string> := ["notes.txt"]

  lemma ExamplePaths()
    ensures Permitted("notes.txt", EXAMPLE_PATHS) && !Permitted("run.sh", EXAMPLE_PATHS)
  {
    assert Under("notes.txt", EXAMPLE_PATHS[0]);
    assert "run.sh"[0] != "notes.txt"[0];
  }

  /** The program loses its owner's execute bit, from 0755 to 0655, while the text is edited: the capture
      succeeds, and its patch touches the program, which is neither listed nor permitted. */
  lemma ModeChangeEscapes(program: seq<Byte>, text: seq<Byte>, edited: seq<Byte>, maxBytes: nat, git: Git)
    requires text != edited && |program| + |edited| <= maxBytes && git.GitWorks? && git.rawSize <= maxBytes
    ensures var base := ExampleBase(program, text);
            var t := TwoFiles(File(program, false, true), File(edited, false, false));
            && Plain(base) && Capturable(base, t, EXAMPLE_PATHS, maxBytes, git)
            && Listed(Contents(t)) != Listed(base)
            && "run.sh" in PatchOf(base, Contents(t)) && !Permitted("run.sh", EXAMPLE_PATHS)
            && !Differ(Listed(base), Listed(Contents(t)), "run.sh")
  {
    hide Permitted, ContractPath, Inspectable;
    var a, b := File(program, false, true), File(edited, false, false);
    ExampleCapture(program, text, a, b, maxBytes);
    ListedIffPatched(ExampleBase(program, text), Contents(TwoFiles(a, b)), "run.sh");
  }

  lemma ExampleCapture(program: seq<Byte>, text: seq<Byte>, a: File, b: File, maxBytes: nat)
    requires |a.content| + |b.content| <= maxBytes && Print(a) == Print(File(program, true, true))
    ensures var base := ExampleBase(program, text);
            var t := TwoFiles(a, b);
            && Inspectable(t, maxBytes, maxBytes) && Contents(t) == map["run.sh" := a, "notes.txt" := b]
            && AllPermitted(Listed(base), Listed(Contents(t)), EXAMPLE_PATHS)
            && |ChangedNames(Listed(base), Listed(Contents(t)))| <= 100
            && (Listed(base) == Listed(Contents(t)) <==> Print(b) == Print(File(text, false, false)))
            && !Permitted("run.sh", EXAMPLE_PATHS)
  {
    hide Permitted, ContractPath, Inspectable, Listed, Print, Differ, TwoFiles, ExampleBase;
    TwoFilesInspectable(a, b, maxBytes);
    ExamplePaths();
    PlainEntry("notes.txt", b);
    ExampleListings(program, text, a, b);
    var before, after := Listed(ExampleBase(program, text)), Listed(Contents(TwoFiles(a, b)));
    assert ChangedNames(before, after) <= {"notes.txt"};
    SubsetSize(ChangedNames(before, after), {"notes.txt"});
  }

  lemma ExampleListings(program: seq<Byte>, text: seq<Byte>, a: File, b: File)
    requires Print(a) == Print(File(program, true, true))
    ensures var before, after := Listed(ExampleBase(program, text)), Listed(Contents(TwoFiles(a, b)));
            && (forall name :: Differ(before, after, name) ==> name == "notes.txt")
            && (before == after <==> Print(b) == Print(File(text, false, false)))
  {
    hide Print;
    var before, after := Listed(ExampleBase(program, text)), Listed(Contents(TwoFiles(a, b)));
    assert "run.sh" != "notes.txt";
    assert before == map["run.sh" := Print(File(program, true, true)), "notes.txt" := Print(File(text, false, false))];
    assert after == map["run.sh" := Print(a), "notes.txt" := Print(b)];
    assert before["notes.txt"] == Print(File(text, false, false)) && after["notes.txt"] == Print(b);
  }

  /** The same change of mode alone is no change to the listing: no patch is taken, although what would
      be recorded differs from the base. */
  lemma ModeChangeIsMissed(program: seq<Byte>, text: seq<Byte>, maxBytes: nat, git: Git)
    requires |program| + |text| <= maxBytes
    ensures var base := ExampleBase(program, text);
            var t := TwoFiles(File(program, false, true), File(text, false, false));
            && Plain(base) && Capturable(base, t, EXAMPLE_PATHS, maxBytes, git)
            && Listed(Contents(t)) == Listed(base) && Committed(Contents(t)) != Committed(base)
  {
    hide Permitted, ContractPath, Inspectable;
    var a, b := File(program, false, true), File(text, false, false);
    ExampleCapture(program, text, a, b, maxBytes);
    assert Committed(Contents(TwoFiles(a, b)))["run.sh"] != Committed(ExampleBase(program, text))["run.sh"];
  }

  /** A text that others alone may execute, 0645 for 0644, is listed as modified by a patch that is empty. */
  lemma ModeChangeIsEmpty(program: seq<Byte>, text: seq<Byte>, maxBytes: nat, git: Git)
    requires |program| + |text| <= maxBytes && git.GitWorks? && git.rawSize <= maxBytes
    ensures var base := ExampleBase(program, text);
            var t := TwoFiles(File(program, true, true), File(text, false, true));
            && Plain(base) && Capturable(base, t, EXAMPLE_PATHS, maxBytes, git)
            && Differ(Listed(base), Listed(Contents(t)), "notes.txt") && PatchOf(base, Contents(t)) == map[]
  {
    hide Permitted, ContractPath, Inspectable;
    var a, b := File(program, true, true), File(text, false, true);
    ExampleCapture(program, text, a, b, maxBytes);
    assert Committed(Contents(TwoFiles(a, b))) == Committed(ExampleBase(program, text));
  }
}
