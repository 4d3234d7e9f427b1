/** Dictionary values as produced by `model_dump`, and
    `chopin/tools/dictionaries.py`: flattening one level of nesting. A Python
    dict is an insertion-ordered list of (key, value) entries; assigning to an
    existing key replaces its value where it stands, assigning to a new key
    appends an entry. */
module Dictionaries {
  import opened Common
  import Seqs
  import Dates

  datatype Value =
    | Null
    | Bool(b: bool)
    | Int(i: int)
    | Real(r: real)
    | Str(s: string)
    | Day(d: Dates.Date)
    | List(items: seq<Value>)
    | Dict(entries: seq<Entry>)

  type Entry = (string, Value)

  function Keys(d: seq<Entry>): (ks: seq<string>)
    ensures |ks| == |d|
  {
    if |d| == 0 then [] else Keys(d[..|d| - 1]) + [d[|d| - 1].0]
  }

  /** `d[k]`, or `None` when `k` is not a key. */
  function Lookup(d: seq<Entry>, k: string): Option<Value> {
    if |d| == 0 then None
    else if d[0].0 == k then Some(d[0].1)
    else Lookup(d[1..], k)
  }

  /** `d[k] = v`. */
  function Put(d: seq<Entry>, k: string, v: Value): seq<Entry> {
    if |d| == 0 then [(k, v)]
    else if d[0].0 == k then [(k, v)] + d[1..]
    else [d[0]] + Put(d[1..], k, v)
  }

  /** The assignments `ws`, made in order, starting from `acc`. */
  function PutAll(acc: seq<Entry>, ws: seq<Entry>): seq<Entry> {
    if |ws| == 0 then acc
    else Put(PutAll(acc, ws[..|ws| - 1]), ws[|ws| - 1].0, ws[|ws| - 1].1)
  }

  /** The value of the last assignment to `k` in `ws`. */
  function LastWrite(ws: seq<Entry>, k: string): Option<Value> {
    if |ws| == 0 then None
    else if ws[|ws| - 1].0 == k then Some(ws[|ws| - 1].1)
    else LastWrite(ws[..|ws| - 1], k)
  }

  // ---------------------------------------------------------------------
  // Properties of single assignments

  lemma {:induction false} KeysHead(d: seq<Entry>)
    requires |d| > 0
    ensures Keys(d) == [d[0].0] + Keys(d[1..])
    decreases |d|
  {
    if |d| > 1 {
      KeysHead(d[..|d| - 1]);
      assert d[..|d| - 1][1..] == d[1..][..|d[1..]| - 1];
      assert d[..|d| - 1][0] == d[0];
    } else {
      assert d[..|d| - 1] == [];
    }
  }

  lemma {:induction false} PutKeys(d: seq<Entry>, k: string, v: Value)
    ensures Keys(Put(d, k, v)) == if k in Keys(d) then Keys(d) else Keys(d) + [k]
  {
    if |d| == 0 {
      assert Keys([(k, v)]) == [k] by {
        assert [(k, v)][..0] == [];
      }
    } else {
      KeysHead(d);
      var r := Put(d, k, v);
      KeysHead(r);
      if d[0].0 == k {
        assert r[1..] == d[1..];
      } else {
        PutKeys(d[1..], k, v);
        assert r[1..] == Put(d[1..], k, v);
        if k !in Keys(d) {
          assert Keys(r) == [d[0].0] + (Keys(d[1..]) + [k]);
        }
      }
    }
  }

  lemma {:induction false} PutLookup(d: seq<Entry>, k: string, v: Value, k': string)
    ensures Lookup(Put(d, k, v), k') == if k' == k then Some(v) else Lookup(d, k')
  {
    if |d| > 0 && d[0].0 != k {
      PutLookup(d[1..], k, v, k');
      assert Put(d, k, v)[1..] == Put(d[1..], k, v);
    }
  }

  // ---------------------------------------------------------------------
  // What a sequence of assignments leaves behind

  /** The keys end up in the order of their first assignment. */
  lemma {:induction false} PutAllKeys(ws: seq<Entry>)
    ensures Keys(PutAll([], ws)) == Seqs.Dedup(Keys(ws))
  {
    if |ws| > 0 {
      var init := ws[..|ws| - 1];
      PutAllKeys(init);
      PutKeys(PutAll([], init), ws[|ws| - 1].0, ws[|ws| - 1].1);
      assert Keys(ws)[..|ws| - 1] == Keys(init);
    }
  }

  /** Every key holds the value assigned to it last. */
  lemma {:induction false} PutAllLookup(ws: seq<Entry>, k: string)
    ensures Lookup(PutAll([], ws), k) == LastWrite(ws, k)
  {
    if |ws| > 0 {
      PutAllLookup(ws[..|ws| - 1], k);
      PutLookup(PutAll([], ws[..|ws| - 1]), ws[|ws| - 1].0, ws[|ws| - 1].1, k);
    }
  }

  lemma PutAllSnoc(acc: seq<Entry>, ws: seq<Entry>, w: Entry)
    ensures PutAll(acc, ws + [w]) == Put(PutAll(acc, ws), w.0, w.1)
  {
    assert (ws + [w])[..|ws|] == ws;
  }

  // ---------------------------------------------------------------------
  // flatten_dict

  /** The assignments made for one nested dict `sub` found under `key`. */
  function NestedWrites(key: string, sub: seq<Entry>): (ws: seq<Entry>)
    ensures |ws| == |sub|
    ensures forall i :: 0 <= i < |sub| ==> ws[i] == (key + "." + sub[i].0, sub[i].1)
  {
    if |sub| == 0 then []
    else NestedWrites(key, sub[..|sub| - 1]) + [(key + "." + sub[|sub| - 1].0, sub[|sub| - 1].1)]
  }

  /** The assignments made for one entry of the input. */
  function EntryWrites(e: Entry): seq<Entry> {
    if e.1.Dict? then NestedWrites(e.0, e.1.entries) else [e]
  }

  /** All assignments the flattening loop makes, in order. */
  function Writes(d: seq<Entry>): seq<Entry> {
    if |d| == 0 then [] else Writes(d[..|d| - 1]) + EntryWrites(d[|d| - 1])
  }

  function FlattenSpec(d: seq<Entry>): seq<Entry> {
    PutAll([], Writes(d))
  }

  lemma WritesPrefixSnoc(d: seq<Entry>, i: nat)
    requires i < |d|
    ensures Writes(d[..i + 1]) == Writes(d[..i]) + EntryWrites(d[i])
  {
    assert d[..i + 1][..i] == d[..i];
  }

  lemma NestedWritesStep(done: seq<Entry>, key: string, sub: seq<Entry>, j: nat)
    requires j < |sub|
    ensures done + NestedWrites(key, sub[..j + 1])
         == (done + NestedWrites(key, sub[..j])) + [(key + "." + sub[j].0, sub[j].1)]
  {
    assert sub[..j + 1][..j] == sub[..j];
  }

  method FlattenDict(dictionary: seq<Entry>) returns (flat: seq<Entry>)
    ensures flat == FlattenSpec(dictionary)
  {
    flat := [];
    for i := 0 to |dictionary|
      invariant flat == PutAll([], Writes(dictionary[..i]))
    {
      ghost var done := Writes(dictionary[..i]);
      WritesPrefixSnoc(dictionary, i);
      var (key, value) := dictionary[i];
      if value.Dict? {
        var sub := value.entries;
        assert done + NestedWrites(key, sub[..0]) == done;
        for j := 0 to |sub|
          invariant flat == PutAll([], done + NestedWrites(key, sub[..j]))
        {
          NestedWritesStep(done, key, sub, j);
          PutAllSnoc([], done + NestedWrites(key, sub[..j]), (key + "." + sub[j].0, sub[j].1));
          flat := Put(flat, key + "." + sub[j].0, sub[j].1);
        }
        assert sub[..|sub|] == sub;
      } else {
        PutAllSnoc([], done, (key, value));
        flat := Put(flat, key, value);
      }
    }
    assert dictionary[..|dictionary|] == dictionary;
  }

  // ---------------------------------------------------------------------
  // Properties of the flattened dict

  /** Keys come out in order of first assignment, each once. */
  lemma FlattenKeys(d: seq<Entry>)
    ensures Keys(FlattenSpec(d)) == Seqs.Dedup(Keys(Writes(d)))
    ensures Seqs.Distinct(Keys(FlattenSpec(d)))
  {
    PutAllKeys(Writes(d));
  }

  /** On a key collision the entry written later wins. */
  lemma FlattenLookup(d: seq<Entry>, k: string)
    ensures Lookup(FlattenSpec(d), k) == LastWrite(Writes(d), k)
  {
    PutAllLookup(Writes(d), k);
  }

  lemma {:induction false} WritesAppend(a: seq<Entry>, b: seq<Entry>)
    ensures Writes(a + b) == Writes(a) + Writes(b)
    decreases |b|
  {
    if |b| == 0 {
      assert a + b == a;
    } else {
      var b', e := b[..|b| - 1], b[|b| - 1];
      assert (a + b)[..|a + b| - 1] == a + b';
      assert (a + b)[|a + b| - 1] == e;
      assert Writes(a + b) == Writes(a + b') + EntryWrites(e);
      assert Writes(b) == Writes(b') + EntryWrites(e);
      WritesAppend(a, b');
    }
  }

  /** A nested dict with no entries contributes nothing. */
  lemma EmptyNestedContributesNothing(a: seq<Entry>, key: string, b: seq<Entry>)
    ensures Writes(a + [(key, Dict([]))] + b) == Writes(a) + Writes(b)
  {
    var e: Entry := (key, Dict([]));
    assert EntryWrites(e) == [] by {
      assert EntryWrites(e) == NestedWrites(key, []);
    }
    WritesSnoc(a, e);
    assert Writes(a + [e]) == Writes(a);
    WritesAppend(a + [e], b);
  }

  lemma WritesSnoc(a: seq<Entry>, e: Entry)
    ensures Writes(a + [e]) == Writes(a) + EntryWrites(e)
  {
    assert (a + [e])[..|a|] == a;
  }

  /** Non-dict values are kept under their own key (written once, as they are),
      and the entries of a nested dict appear under "key.sub" with their values
      unchanged, so a deeper dict stays a value. */
  lemma EntryWritesShape(e: Entry)
    ensures !e.1.Dict? ==> EntryWrites(e) == [e]
    ensures e.1.Dict? ==> |EntryWrites(e)| == |e.1.entries|
    ensures e.1.Dict? ==> forall i :: 0 <= i < |e.1.entries| ==>
              EntryWrites(e)[i] == (e.0 + "." + e.1.entries[i].0, e.1.entries[i].1)
  {
  }

  lemma FlattenExample()
    ensures FlattenSpec([("a", Int(1)), ("object", Dict([("b", Int(2)), ("sub_object", Dict([("c", Int(3))]))]))])
         == [("a", Int(1)), ("object.b", Int(2)), ("object.sub_object", Dict([("c", Int(3))]))]
  {
    var inner := Dict([("c", Int(3))]);
    var sub := [("b", Int(2)), ("sub_object", inner)];
    var d := [("a", Int(1)), ("object", Dict(sub))];
    assert d[..1] == [("a", Int(1))];
    assert [("a", Int(1))][..0] == [];
    assert Writes(d[..1]) == [("a", Int(1))];
    var w := NestedWrites("object", sub);
    assert "object" + "." + "b" == "object.b";
    assert "object" + "." + "sub_object" == "object.sub_object";
    assert w == [("object.b", Int(2)), ("object.sub_object", inner)];
    assert Writes(d) == [("a", Int(1)), ("object.b", Int(2)), ("object.sub_object", inner)];
    var ws := Writes(d);
    assert ws[..2][..1] == [("a", Int(1))];
    assert ws[..2] == [("a", Int(1)), ("object.b", Int(2))];
    assert PutAll([], ws[..2][..1]) == [("a", Int(1))] by {
      assert ws[..2][..1][..0] == [];
    }
    assert PutAll([], ws[..2]) == [("a", Int(1)), ("object.b", Int(2))];
    assert "object.b" != "object.sub_object" by {
      assert "object.b"[7] != "object.sub_object"[7];
    }
    assert PutAll([], ws) == Put(PutAll([], ws[..2]), "object.sub_object", inner);
    var last := ("object.sub_object", inner);
    assert Put([("object.b", Int(2))], last.0, last.1) == [("object.b", Int(2)), last] by {
      assert [("object.b", Int(2))][1..] == [];
    }
    assert Put([("a", Int(1)), ("object.b", Int(2))], last.0, last.1)
        == [("a", Int(1))] + Put([("object.b", Int(2))], last.0, last.1) by {
      assert [("a", Int(1)), ("object.b", Int(2))][1..] == [("object.b", Int(2))];
    }
  }
}
