/** The membership helper of liveview/view/utils.go. */
module Utils {

  /** Scans `s` from the front and stops at the first element equal to `e`. */
  function ContainsString(s: seq<string>, e: string): (r: bool)
    ensures r <==> exists i :: 0 <= i < |s| && s[i] == e
  {
    if s == [] then false
    else if s[0] == e then true
    else ContainsString(s[1..], e)
  }

  /** The scan is plain sequence membership. */
  lemma ContainsIsMembership(s: seq<string>, e: string)
    ensures ContainsString(s, e) <==> e in s
  {
  }

  /** Nothing is found in an empty slice. */
  lemma ContainsEmpty(e: string)
    ensures !ContainsString([], e)
  {
  }

  /** An element appended to a slice is found in it. */
  lemma ContainsAppended(s: seq<string>, e: string)
    ensures ContainsString(s + [e], e)
  {
    assert (s + [e])[|s|] == e;
  }

  /** Scanning a concatenation finds `e` iff one of the two parts holds it. */
  lemma {:induction false} ContainsConcat(a: seq<string>, b: seq<string>, e: string)
    ensures ContainsString(a + b, e) == (ContainsString(a, e) || ContainsString(b, e))
  {
    if a == [] {
      assert a + b == b;
    } else {
      assert (a + b)[1..] == a[1..] + b;
      ContainsConcat(a[1..], b, e);
    }
  }

  /** The result depends only on which strings occur in `s`: neither their order
      nor how often each occurs matters. */
  lemma ContainsDependsOnlyOnElements(s: seq<string>, t: seq<string>, e: string)
    requires forall x :: x in s <==> x in t
    ensures ContainsString(s, e) == ContainsString(t, e)
  {
    ContainsIsMembership(s, e);
    ContainsIsMembership(t, e);
  }
}

/** The file system as the runtime sees it through `Exists` and `FileToString`:
    a map from path to contents. */
module Files {

  /** The `if Exists(name) { name, _ = FileToString(name) }` idiom: a name that
      is an existing path is replaced by the file's contents, any other string
      is kept as it is (it is then taken to be the contents themselves). */
  function ContentsOrSelf(files: map<string, string>, name: string): (r: string)
    ensures name in files ==> r == files[name]
    ensures name !in files ==> r == name
  {
    if name in files then files[name] else name
  }
}
