/**
 * Chained subscripts on parsed JSON: reading `x[k1][k2]...[kn]` and the assignment
 * `x[k1][k2]...[kn] = v`, which writes into the innermost container in place.
 */
module JsonPath {
  import opened Wrappers
  import opened OrderedDict
  import opened PyJson

  /** One subscript: a dict key or a list position. */
  datatype Seg = Key(k: string) | At(i: nat)

  type Path = seq<Seg>

  /** `x[s]` for one subscript. */
  function Sub(x: Json, s: Seg): (r: Result<Json>)
    ensures r.Ok? && x.JObj? ==> s.Key? && Lookup(x.fields, s.k) == Some(r.value)
    ensures r.Ok? && x.JArr? ==> s.At? && s.i < |x.items| && r.value == x.items[s.i]
  {
    match s
    case Key(k) => Index(x, k)
    case At(i) =>
      match x
      case JArr(items) => if i < |items| then Ok(items[i]) else Raise(IndexError)
      case JStr(t) => if i < |t| then Ok(JStr([t[i]])) else Raise(IndexError)
      case JObj(_) => Raise(KeyError)
      case _ => Raise(TypeError)
  }

  /** `x[s] = v` for one subscript; only dicts are assigned by key and lists by position. */
  function SetSub(x: Json, s: Seg, v: Json): (r: Result<Json>)
    ensures r.Ok? ==> Sub(r.value, s) == Ok(v)
  {
    match (x, s)
    case (JObj(fields), Key(k)) =>
      LookupPut(fields, k, v, k);
      Ok(JObj(Put(fields, k, v)))
    case (JArr(items), At(i)) => if i < |items| then Ok(JArr(items[i := v])) else Raise(IndexError)
    case _ => Raise(TypeError)
  }

  /** `x[p0][p1]...`. */
  function Follow(x: Json, p: Path): Result<Json>
    decreases |p|
  {
    if p == [] then Ok(x)
    else
      var c :- Sub(x, p[0]);
      Follow(c, p[1..])
  }

  /** `x[p0]...[pn] = v`, returning the updated `x`. */
  function Assign(x: Json, p: Path, v: Json): Result<Json>
    requires p != []
    decreases |p|
  {
    if |p| == 1 then SetSub(x, p[0], v)
    else
      var c :- Sub(x, p[0]);
      var c' :- Assign(c, p[1..], v);
      SetSub(x, p[0], c')
  }

  /** Neither path is a prefix of the other, so they name separate places. */
  predicate Apart(p: Path, q: Path) {
    exists k :: 0 <= k < |p| && k < |q| && p[k] != q[k]
  }

  lemma SubSetSubOther(x: Json, s: Seg, v: Json, t: Seg)
    requires SetSub(x, s, v).Ok? && s != t
    ensures Sub(SetSub(x, s, v).value, t) == Sub(x, t)
  {
    if x.JObj? && t.Key? {
      LookupPut(x.fields, s.k, v, t.k);
    }
  }

  /** After an assignment, the path reads back the assigned value. */
  lemma {:induction false} FollowAssign(x: Json, p: Path, v: Json)
    requires p != [] && Assign(x, p, v).Ok?
    ensures Follow(Assign(x, p, v).value, p) == Ok(v)
    decreases |p|
  {
    if |p| > 1 {
      var c := Sub(x, p[0]).value;
      FollowAssign(c, p[1..], v);
    }
  }

  /** An assignment leaves every place apart from it as it was. */
  lemma {:induction false} FollowAssignApart(x: Json, p: Path, v: Json, q: Path)
    requires p != [] && Assign(x, p, v).Ok? && Apart(p, q)
    ensures Follow(Assign(x, p, v).value, q) == Follow(x, q)
    decreases |p|
  {
    var r := Assign(x, p, v).value;
    if p[0] != q[0] {
      if |p| == 1 {
        SubSetSubOther(x, p[0], v, q[0]);
      } else {
        var c := Sub(x, p[0]).value;
        SubSetSubOther(x, p[0], Assign(c, p[1..], v).value, q[0]);
      }
    } else {
      assert |p| > 1 && |q| > 1;
      var c := Sub(x, p[0]).value;
      var c' := Assign(c, p[1..], v).value;
      assert Sub(r, q[0]) == Ok(c');
      assert Apart(p[1..], q[1..]) by {
        var k :| 0 <= k < |p| && k < |q| && p[k] != q[k];
        assert p[1..][k - 1] != q[1..][k - 1];
      }
      FollowAssignApart(c, p[1..], v, q[1..]);
    }
  }

  /** Reading along `p + q` is reading `q` from whatever `p` reaches. */
  lemma {:induction false} FollowAppend(x: Json, p: Path, q: Path)
    ensures Follow(x, p + q) == (match Follow(x, p) case Ok(y) => Follow(y, q) case Raise(e) => Raise(e))
    decreases |p|
  {
    if p != [] {
      assert (p + q)[1..] == p[1..] + q;
      match Sub(x, p[0])
      case Ok(c) => FollowAppend(c, p[1..], q);
      case Raise(_) =>
    } else {
      assert p + q == q;
    }
  }
  /** Every subscript is a dict key, as in `x["a"]["b"]`. */
  predicate KeyPath(p: Path) {
    forall i :: 0 <= i < |p| ==> p[i].Key?
  }

  /** Reading along a key path only succeeds through dicts, so assigning along it succeeds too. */
  lemma {:induction false} AssignAfterFollow(x: Json, p: Path, v: Json)
    requires p != [] && KeyPath(p) && Follow(x, p).Ok?
    ensures Assign(x, p, v).Ok?
    decreases |p|
  {
    assert p[0].Key?;
    var c := Sub(x, p[0]).value;
    if |p| > 1 {
      assert KeyPath(p[1..]) by {
        forall i | 0 <= i < |p[1..]| ensures p[1..][i].Key? {
          assert p[1..][i] == p[i + 1];
        }
      }
      AssignAfterFollow(c, p[1..], v);
    }
  }

  lemma ApartSymmetric(p: Path, q: Path)
    requires Apart(p, q)
    ensures Apart(q, p)
  {
    var k :| 0 <= k < |p| && k < |q| && p[k] != q[k];
    assert q[k] != p[k];
  }

  /** Paths that differ at their first subscript are apart. */
  lemma ApartAtHead(p: Path, q: Path)
    requires p != [] && q != [] && p[0] != q[0]
    ensures Apart(p, q)
  {
  }

  /** Paths that are apart stay apart under a common prefix. */
  lemma ApartUnder(prefix: Path, p: Path, q: Path)
    requires Apart(p, q)
    ensures Apart(prefix + p, prefix + q)
  {
    var k :| 0 <= k < |p| && k < |q| && p[k] != q[k];
    assert (prefix + p)[|prefix| + k] == p[k];
    assert (prefix + q)[|prefix| + k] == q[k];
  }

  /** The assignments `x[p] = v` for each `(p, v)` of `ws`, in order; the first that raises stops them. */
  function AssignAll(x: Json, ws: seq<(Path, Json)>): Result<Json>
    requires forall i :: 0 <= i < |ws| ==> ws[i].0 != []
    decreases |ws|
  {
    if ws == [] then Ok(x)
    else
      var y :- Assign(x, ws[0].0, ws[0].1);
      AssignAll(y, ws[1..])
  }

  /** `q` is apart from every assigned path. */
  predicate ApartFromAll(ws: seq<(Path, Json)>, q: Path) {
    forall i :: 0 <= i < |ws| ==> Apart(ws[i].0, q)
  }

  /** No two assigned paths overlap. */
  predicate PairwiseApart(ws: seq<(Path, Json)>) {
    forall i, j :: 0 <= i < j < |ws| ==> Apart(ws[i].0, ws[j].0)
  }

  /** A run of assignments leaves every place apart from all of them as it was. */
  lemma {:induction false} FollowAssignAllApart(x: Json, ws: seq<(Path, Json)>, q: Path)
    requires forall i :: 0 <= i < |ws| ==> ws[i].0 != []
    requires AssignAll(x, ws).Ok? && ApartFromAll(ws, q)
    ensures Follow(AssignAll(x, ws).value, q) == Follow(x, q)
    decreases |ws|
  {
    if ws != [] {
      var y := Assign(x, ws[0].0, ws[0].1).value;
      assert ApartFromAll(ws[1..], q) by {
        forall i | 0 <= i < |ws[1..]| ensures Apart(ws[1..][i].0, q) {
          assert ws[1..][i] == ws[i + 1];
        }
      }
      FollowAssignAllApart(y, ws[1..], q);
      FollowAssignApart(x, ws[0].0, ws[0].1, q);
    }
  }

  /** After a run of non-overlapping assignments, each path reads back its own value. */
  lemma {:induction false} FollowAssignAll(x: Json, ws: seq<(Path, Json)>, i: nat)
    requires forall j :: 0 <= j < |ws| ==> ws[j].0 != []
    requires AssignAll(x, ws).Ok? && PairwiseApart(ws) && i < |ws|
    ensures Follow(AssignAll(x, ws).value, ws[i].0) == Ok(ws[i].1)
    decreases |ws|
  {
    var y := Assign(x, ws[0].0, ws[0].1).value;
    var rest := ws[1..];
    assert PairwiseApart(rest) by {
      forall a, b | 0 <= a < b < |rest| ensures Apart(rest[a].0, rest[b].0) {
        assert rest[a] == ws[a + 1] && rest[b] == ws[b + 1];
      }
    }
    if i == 0 {
      assert ApartFromAll(rest, ws[0].0) by {
        forall j | 0 <= j < |rest| ensures Apart(rest[j].0, ws[0].0) {
          assert rest[j] == ws[j + 1];
          ApartSymmetric(ws[0].0, ws[j + 1].0);
        }
      }
      FollowAssignAllApart(y, rest, ws[0].0);
      FollowAssign(x, ws[0].0, ws[0].1);
    } else {
      assert rest[i - 1] == ws[i];
      FollowAssignAll(y, rest, i - 1);
    }
  }
  /** Reading along a key path raises only `KeyError` (a missing key) or `TypeError` (not a dict). */
  lemma {:induction false} FollowKeyPathErrors(x: Json, p: Path)
    requires KeyPath(p) && Follow(x, p).Raise?
    ensures Follow(x, p).error == KeyError || Follow(x, p).error == TypeError
    decreases |p|
  {
    assert p[0].Key?;
    match Sub(x, p[0])
    case Raise(_) =>
    case Ok(c) =>
      assert KeyPath(p[1..]) by {
        forall i | 0 <= i < |p[1..]| ensures p[1..][i].Key? {
          assert p[1..][i] == p[i + 1];
        }
      }
      FollowKeyPathErrors(c, p[1..]);
  }

  /** Below an assigned place, the new value is read; below the old place, the old value. */
  lemma FollowAssignInside(x: Json, p: Path, v: Json, q: Path)
    requires p != [] && Assign(x, p, v).Ok? && Follow(x, p).Ok?
    ensures Follow(Assign(x, p, v).value, p + q) == Follow(v, q)
    ensures Follow(x, p + q) == Follow(Follow(x, p).value, q)
  {
    FollowAssign(x, p, v);
    FollowAppend(Assign(x, p, v).value, p, q);
    FollowAppend(x, p, q);
  }

  /**
   * A path that is not apart from `p` but is apart from an extension of `p`
   * runs through `p`, and what follows `p` is apart from the extension.
   */
  lemma ApartBelow(p: Path, ext: Path, q: Path)
    requires Apart(p + ext, q) && !Apart(p, q)
    ensures |p| <= |q| && q == p + q[|p|..] && Apart(ext, q[|p|..])
  {
    var k :| 0 <= k < |p + ext| && k < |q| && (p + ext)[k] != q[k];
    assert forall j :: 0 <= j < |p| && j < |q| ==> p[j] == q[j];
    assert forall j :: 0 <= j < |p| ==> (p + ext)[j] == p[j];
    assert k >= |p|;
    assert q == p + q[|p|..];
    assert ext[k - |p|] == (p + ext)[k] && q[|p|..][k - |p|] == q[k];
  }

  /** Assigning the same value twice along the same path is assigning it once. */
  lemma {:induction false} AssignTwice(x: Json, p: Path, v: Json)
    requires p != [] && Assign(x, p, v).Ok?
    ensures Assign(Assign(x, p, v).value, p, v) == Assign(x, p, v)
    decreases |p|
  {
    var y := Assign(x, p, v).value;
    if |p| == 1 {
      match (x, p[0])
      case (JObj(fields), Key(k)) =>
        PutTwice(fields, k, v);
        assert y == JObj(Put(fields, k, v));
      case (JArr(items), At(i)) =>
        assert y == JArr(items[i := v]);
        assert items[i := v][i := v] == items[i := v];
    } else {
      var c := Sub(x, p[0]).value;
      var c' := Assign(c, p[1..], v).value;
      AssignTwice(c, p[1..], v);
      assert Sub(y, p[0]) == Ok(c');
      assert Assign(c', p[1..], v) == Ok(c');
      match (x, p[0])
      case (JObj(fields), Key(k)) =>
        PutTwice(fields, k, c');
        assert y == JObj(Put(fields, k, c'));
      case (JArr(items), At(i)) =>
        assert y == JArr(items[i := c']);
        assert items[i := c'][i := c'] == items[i := c'];
    }
  }
}
