/** The file name normalisation of the start commands:
    `name.rsplit('.', 1)[0]` drops the last `.`-suffix, if there is one. */
module FileNames {

  /** The index of the last occurrence of `c` in `s`, or -1 if there is none. */
  function LastIndexOf(s: string, c: char): (r: int)
    ensures -1 <= r < |s|
    ensures r >= 0 ==> s[r] == c
    ensures forall j :: r < j < |s| ==> s[j] != c
    decreases |s|
  {
    if s == [] then -1
    else if s[|s| - 1] == c then |s| - 1
    else LastIndexOf(s[..|s| - 1], c)
  }

  /** `name.rsplit('.', 1)[0]`: everything before the last '.', or the
      whole name when it has no '.'. */
  function StripExtension(name: string): (base: string)
    ensures '.' !in name ==> base == name
    ensures '.' in name ==>
      && |base| < |name|
      && base == name[..|base|]
      && name[|base|] == '.'
      && '.' !in name[|base| + 1..]
  {
    var i := LastIndexOf(name, '.');
    if i < 0 then name else name[..i]
  }

  /** Stripping undoes appending an extension that contains no '.'; only
      the last suffix goes, so earlier dots in `base` survive. */
  lemma StripExtensionOfJoined(base: string, ext: string)
    requires '.' !in ext
    ensures StripExtension(base + "." + ext) == base
  {
    var name := base + "." + ext;
    var i := LastIndexOf(name, '.');
    assert name[|base|] == '.';
    assert i == |base|;
    assert name[..i] == base;
  }

  /** `"a.b.sl1"` loses only `".sl1"`; a name without a dot is kept whole. */
  lemma StripExtensionExample()
    ensures StripExtension("a.b.sl1") == "a.b"
    ensures StripExtension("cube") == "cube"
  {
    StripExtensionOfJoined("a.b", "sl1");
  }
}
