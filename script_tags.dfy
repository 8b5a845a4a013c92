/**
 * What `ScriptsFinder.handle_starttag` reads from the attributes of a
 * `<script>` tag, and how it names the Python scripts of a page.
 */
module ScriptTags {
  import opened Options
  import opened Paths

  /** One attribute as `HTMLParser` passes it: the value is None when the attribute has none (`<script async>`). */
  type Attr = (string, Option<string>)

  /** `value.lower() in ['text/python', 'text/python3']` */
  predicate IsPythonType(value: string)
  {
    Lower(value) == "text/python" || Lower(value) == "text/python3"
  }

  /** What the attribute loop leaves in its locals `python`, `src` and `_id`. */
  datatype TagInfo = TagInfo(python: bool, src: Option<string>, id: Option<string>)

  /** Reference definition: the value of the last attribute called `key`; None when there is none. */
  function LastValue(attrs: seq<Attr>, key: string): Option<string>
    decreases |attrs|
  {
    if attrs == [] then None
    else if attrs[|attrs| - 1].0 == key then attrs[|attrs| - 1].1
    else LastValue(attrs[..|attrs| - 1], key)
  }

  /** Some `type` attribute names Python, in any letter case. */
  predicate HasPythonType(attrs: seq<Attr>)
  {
    exists i :: 0 <= i < |attrs| && attrs[i].0 == "type" && attrs[i].1.Some? && IsPythonType(attrs[i].1.value)
  }

  /** Some `type` attribute has no value: `value.lower()` raises `AttributeError` on it. */
  predicate TypeWithoutValue(attrs: seq<Attr>)
  {
    exists i :: 0 <= i < |attrs| && attrs[i].0 == "type" && attrs[i].1.None?
  }

  /** The outcome of the attribute loop: None when it raises. */
  function ReadAttrs(attrs: seq<Attr>): Option<TagInfo>
  {
    if TypeWithoutValue(attrs) then None
    else Some(TagInfo(HasPythonType(attrs), LastValue(attrs, "src"), LastValue(attrs, "id")))
  }

  /** The attribute loop of `handle_starttag`. */
  method ScanAttrs(attrs: seq<Attr>) returns (info: Option<TagInfo>)
    ensures info == ReadAttrs(attrs)
  {
    var python, src, id := false, None, None;
    for i := 0 to |attrs|
      invariant !TypeWithoutValue(attrs[..i])
      invariant python == HasPythonType(attrs[..i])
      invariant src == LastValue(attrs[..i], "src")
      invariant id == LastValue(attrs[..i], "id")
    {
      var (key, value) := attrs[i];
      assert attrs[..i + 1][..i] == attrs[..i];
      assert attrs[..i + 1][i] == attrs[i];
      assert forall j :: 0 <= j < i ==> attrs[..i + 1][j] == attrs[..i][j];
      if key == "type" && value.None? {
        assert TypeWithoutValue(attrs) by {
          assert attrs[i].0 == "type" && attrs[i].1.None?;
        }
        return None;
      }
      if key == "type" && IsPythonType(value.value) {
        python := true;
      } else if key == "src" {
        src := value;
      } else if key == "id" {
        id := value;
      }
    }
    assert attrs[..|attrs|] == attrs;
    return Some(TagInfo(python, src, id));
  }

  /** The `type` test ignores the case of ASCII letters. */
  lemma IsPythonTypeIgnoresCase(value: string)
    ensures IsPythonType(value) <==> SameIgnoringCase(value, "text/python") || SameIgnoringCase(value, "text/python3")
  {
    var t, t3 := "text/python", "text/python3";
    assert Lower(t) == t by {
      forall i | 0 <= i < |t| ensures Lower(t)[i] == t[i] { }
    }
    assert Lower(t3) == t3 by {
      forall i | 0 <= i < |t3| ensures Lower(t3)[i] == t3[i] { }
    }
    LowerMatches(value, t);
    LowerMatches(value, t3);
  }

  /** Number of unnamed Python scripts met so far, as the optional `counter` field records it. */
  function Count(counter: Option<nat>): nat
  {
    match counter
    case None => 0
    case Some(n) => n
  }

  /** The id of the unnamed Python script numbered `k` from 0: `__main__`, `__main__1`, `__main__2`, ... */
  function UnnamedId(k: nat): string
  {
    if k == 0 then "__main__" else "__main__" + NatToString(k)
  }

  /**
   * The id chosen for a Python script tag and the new counter: an explicit id
   * is used as it is and leaves the counter alone; otherwise the script gets
   * the next unnamed id and the counter advances by one.
   */
  function AssignId(explicit: Option<string>, counter: Option<nat>): (r: (string, Option<nat>))
    ensures explicit.Some? ==> r == (explicit.value, counter)
    ensures explicit.None? && counter != Some(0) ==>
      r.0 == UnnamedId(Count(counter)) && r.1 == Some(Count(counter) + 1)
  {
    match explicit
    case Some(x) => (x, counter)
    case None =>
      match counter
      case None => ("__main__", Some(1))
      case Some(n) => ("__main__" + NatToString(n), Some(n + 1))
  }

  /** No two unnamed scripts get the same id. */
  lemma UnnamedIdInjective(a: nat, b: nat)
    requires UnnamedId(a) == UnnamedId(b)
    ensures a == b
  {
    var p := "__main__";
    if a > 0 && b > 0 {
      assert (p + NatToString(a))[|p|..] == NatToString(a);
      assert (p + NatToString(b))[|p|..] == NatToString(b);
      NatToStringInjective(a, b);
    }
  }

  /** The ids given to a run of Python script tags, one per tag, starting from `counter`. */
  function AssignAll(explicits: seq<Option<string>>, counter: Option<nat>): (ids: seq<string>)
    ensures |ids| == |explicits|
    decreases |explicits|
  {
    if explicits == [] then []
    else
      var given := AssignId(explicits[0], counter);
      [given.0] + AssignAll(explicits[1..], given.1)
  }

  /** How many of the tags have no explicit id. */
  function Unnamed(explicits: seq<Option<string>>): nat
  {
    multiset(explicits)[None]
  }

  /**
   * Script numbering on a page: the tag at position `i` gets its explicit id,
   * or else the unnamed id numbered by how many unnamed tags came before it.
   */
  lemma {:induction false} AssignAllNumbering(explicits: seq<Option<string>>, counter: Option<nat>, i: nat)
    requires counter != Some(0)
    requires i < |explicits|
    ensures explicits[i].Some? ==> AssignAll(explicits, counter)[i] == explicits[i].value
    ensures explicits[i].None? ==> AssignAll(explicits, counter)[i] == UnnamedId(Count(counter) + Unnamed(explicits[..i]))
    decreases |explicits|
  {
    if i > 0 {
      var next := AssignId(explicits[0], counter).1;
      assert AssignAll(explicits, counter)[i] == AssignAll(explicits[1..], next)[i - 1];
      AssignAllNumbering(explicits[1..], next, i - 1);
      UnnamedFirst(explicits, i);
      assert Count(next) == Count(counter) + Unnamed([explicits[0]]);
    }
  }

  /** Splitting the first tag off a prefix splits its unnamed count. */
  lemma UnnamedFirst(explicits: seq<Option<string>>, i: nat)
    requires 0 < i <= |explicits|
    ensures Unnamed(explicits[..i]) == Unnamed([explicits[0]]) + Unnamed(explicits[1..][..i - 1])
  {
    assert explicits[..i] == [explicits[0]] + explicits[1..][..i - 1];
  }

  /** An unnamed tag at `i` is counted by every longer prefix. */
  lemma UnnamedGrows(explicits: seq<Option<string>>, i: nat, j: nat)
    requires i < j <= |explicits|
    requires explicits[i].None?
    ensures Unnamed(explicits[..j]) >= Unnamed(explicits[..i]) + 1
  {
    assert explicits[..j] == explicits[..i] + [explicits[i]] + explicits[i + 1..j];
    assert multiset(explicits[..j]) == multiset(explicits[..i]) + multiset{explicits[i]} + multiset(explicits[i + 1..j]);
  }

  /** Two different unnamed tags of a page never share an id. */
  lemma UnnamedIdsDistinct(explicits: seq<Option<string>>, i: nat, j: nat)
    requires i < j < |explicits|
    requires explicits[i].None? && explicits[j].None?
    ensures AssignAll(explicits, None)[i] != AssignAll(explicits, None)[j]
  {
    var ids := AssignAll(explicits, None);
    var a, b := Unnamed(explicits[..i]), Unnamed(explicits[..j]);
    AssignAllNumbering(explicits, None, i);
    AssignAllNumbering(explicits, None, j);
    assert ids[i] == UnnamedId(a) && ids[j] == UnnamedId(b);
    UnnamedGrows(explicits, i, j);
    if ids[i] == ids[j] {
      UnnamedIdInjective(a, b);
    }
  }
}
