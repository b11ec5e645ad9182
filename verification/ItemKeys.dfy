/**
  The keys of the rows the events UI shows (internal/eventlog/groups.go): repeated keys are numbered,
  because a repeat can stop a list from rendering.
 */
module ItemKeys {
  import opened Keys

  // How often a key occurs.
  function Count(keys: seq<string>, key: string): nat {
    if keys == [] then 0
    else Count(keys[..|keys| - 1], key) + if keys[|keys| - 1] == key then 1 else 0
  }

  // Which occurrence of its key the item at `i` is.
  function Nth(keys: seq<string>, i: nat): (n: nat)
    requires i < |keys|
    ensures n >= 1
  {
    Count(keys[..i], keys[i]) + 1
  }

  function NumberedKey(key: string, n: nat): string {
    if n <= 1 then key else key + "#" + Itoa(n)
  }

  // The keys of the first `n` items, repeats numbered.
  function AllNumbered(keys: seq<string>, n: nat): (unique: seq<string>)
    requires n <= |keys|
    ensures |unique| == n
  {
    if n == 0 then [] else AllNumbered(keys, n - 1) + [NumberedKey(keys[n - 1], Nth(keys, n - 1))]
  }

  lemma {:induction false} AllNumberedAt(keys: seq<string>, n: nat, i: nat)
    requires i < n <= |keys|
    ensures AllNumbered(keys, n)[i] == NumberedKey(keys[i], Nth(keys, i))
  {
    if i < n - 1 {
      AllNumberedAt(keys, n - 1, i);
    }
  }

  ghost predicate Counted(seen: map<string, nat>, keys: seq<string>) {
    forall k: string :: Count(keys, k) == if k in seen then seen[k] else 0
  }

  lemma CountedGrows(seen: map<string, nat>, keys: seq<string>, key: string)
    requires Counted(seen, keys)
    ensures Counted(seen[key := Count(keys, key) + 1], keys + [key])
  {
    assert (keys + [key])[..|keys|] == keys;
  }

  // uniqueItemKeys.
  method UniqueItemKeys(keys: seq<string>) returns (unique: seq<string>)
    ensures unique == AllNumbered(keys, |keys|)
  {
    var seen: map<string, nat> := map[];
    unique := [];
    for i := 0 to |keys|
      invariant unique == AllNumbered(keys, i)
      invariant Counted(seen, keys[..i])
    {
      CountedGrows(seen, keys[..i], keys[i]);
      assert keys[..i + 1] == keys[..i] + [keys[i]];
      seen := seen[keys[i] := (if keys[i] in seen then seen[keys[i]] else 0) + 1];
      assert seen[keys[i]] == Nth(keys, i);
      unique := unique + [NumberedKey(keys[i], seen[keys[i]])];
    }
  }

  ghost predicate Distinct(keys: seq<string>) {
    forall i, j | 0 <= i < j < |keys| :: keys[i] != keys[j]
  }

  // A key occurs often enough to be numbered the way another key already reads.
  ghost predicate Clash(keys: seq<string>) {
    exists i, j | 0 <= i < |keys| && 0 <= j < |keys| :: Nth(keys, i) >= 2 && keys[j] == NumberedKey(keys[i], Nth(keys, i))
  }

  lemma {:induction false} CountGrows(keys: seq<string>, key: string, i: nat, j: nat)
    requires i <= j <= |keys|
    ensures Count(keys[..i], key) <= Count(keys[..j], key)
    ensures (exists k | i <= k < j :: keys[k] == key) ==> Count(keys[..i], key) < Count(keys[..j], key)
    decreases j
  {
    if i < j {
      assert keys[..j][..j - 1] == keys[..j - 1];
      CountGrows(keys, key, i, j - 1);
    }
  }

  // Where a key occurs first.
  lemma {:induction false} FirstOccurrence(keys: seq<string>, j: nat) returns (i: nat)
    requires j < |keys|
    ensures i <= j && keys[i] == keys[j] && Nth(keys, i) == 1
  {
    if k: nat :| k < j && keys[k] == keys[j] {
      i := FirstOccurrence(keys, k);
    } else {
      i := j;
      NeverOccurs(keys[..j], keys[j]);
    }
  }

  lemma {:induction false} NeverOccurs(keys: seq<string>, key: string)
    requires key !in keys
    ensures Count(keys, key) == 0
  {
    if keys != [] {
      NeverOccurs(keys[..|keys| - 1], key);
    }
  }

  function TrailingDigits(s: string): nat {
    if s == "" || !IsDigit(s[|s| - 1]) then 0 else TrailingDigits(s[..|s| - 1]) + 1
  }

  lemma {:induction false} TrailingAfter(a: string, x: char, d: string)
    requires !IsDigit(x) && forall i | 0 <= i < |d| :: IsDigit(d[i])
    ensures TrailingDigits(a + [x] + d) == |d|
  {
    if d != "" {
      TrailingAfter(a, x, d[..|d| - 1]);
      assert (a + [x] + d)[..|a| + |d|] == a + [x] + d[..|d| - 1];
    }
  }

  // Before the trailing digits stands the same text.
  lemma LastMark(a: string, d: string, b: string, e: string, x: char, y: char)
    requires a + [x] + d == b + [y] + e && !IsDigit(x) && !IsDigit(y)
    requires (forall i | 0 <= i < |d| :: IsDigit(d[i])) && (forall i | 0 <= i < |e| :: IsDigit(e[i]))
    ensures a == b && x == y && d == e
  {
    var s, t := a + [x] + d, b + [y] + e;
    TrailingAfter(a, x, d);
    TrailingAfter(b, y, e);
    assert s[..|a|] == a && t[..|b|] == b && s[|a| + 1..] == d && t[|b| + 1..] == e && s[|a|] == x && t[|b|] == y;
  }

  // The number after the last mark tells the key and the number apart.
  lemma MarksDiffer(a: string, b: string, m: nat, n: nat)
    ensures a + "#" + Itoa(m) == b + "#" + Itoa(n) ==> a == b && m == n
  {
    if a + "#" + Itoa(m) == b + "#" + Itoa(n) {
      LastMark(a, Itoa(m), b, Itoa(n), '#', '#');
      DecimalOfItoa(m);
      DecimalOfItoa(n);
    }
  }

  // Numbering makes keys unique exactly if no numbered key reads like another key.
  lemma UniqueIff(keys: seq<string>)
    ensures Distinct(AllNumbered(keys, |keys|)) <==> !Clash(keys)
  {
    var unique := AllNumbered(keys, |keys|);
    if Clash(keys) {
      var i, j :| 0 <= i < |keys| && 0 <= j < |keys| && Nth(keys, i) >= 2 && keys[j] == NumberedKey(keys[i], Nth(keys, i));
      var first := FirstOccurrence(keys, j);
      AllNumberedAt(keys, |keys|, first);
      AllNumberedAt(keys, |keys|, i);
      assert unique[first] == unique[i] && first != i;
    } else {
      forall i, j | 0 <= i < j < |keys|
        ensures unique[i] != unique[j]
      {
        AllNumberedAt(keys, |keys|, i);
        AllNumberedAt(keys, |keys|, j);
        NumbersDiffer(keys, i, j);
      }
    }
  }

  // Three keys are enough for a repeat to read like another key.
  lemma RepeatCanClash()
    ensures var keys := ["a", "a", "a#2"]; !Distinct(AllNumbered(keys, |keys|))
  {
    var keys := ["a", "a", "a#2"];
    assert keys[..1] == ["a"] && ["a"][..0] == [] && keys[..0] == [];
    assert Count(keys[..0], "a") == 0 && Count(keys[..1], "a") == 1;
    assert Nth(keys, 1) == 2 && NumberedKey("a", 2) == keys[2];
    UniqueIff(keys);
  }

  lemma NumbersDiffer(keys: seq<string>, i: nat, j: nat)
    requires i < j < |keys| && !Clash(keys)
    ensures NumberedKey(keys[i], Nth(keys, i)) != NumberedKey(keys[j], Nth(keys, j))
  {
    MarksDiffer(keys[i], keys[j], Nth(keys, i), Nth(keys, j));
    CountGrows(keys, keys[i], i, j);
  }

  // Incident keys end in a number.

  function Number(n: int): string {
    if n < 0 then "-" + Itoa(-n) else Itoa(n)
  }

  function IncidentKey(status: string, source: string, start: int, incident: int): string {
    "incident:" + status + ":" + source + ":" + Number(start) + if incident != 0 then ":" + Number(incident) else ""
  }

  ghost predicate EndsInNumber(key: string) {
    exists prefix: string, n: int :: key == prefix + ":" + Number(n)
  }

  // A numbered key never reads like a key that ends in a colon and a number.
  lemma NumberedIsNoIncidentKey(key: string, n: nat, other: string)
    requires n >= 2 && EndsInNumber(other)
    ensures NumberedKey(key, n) != other
  {
    var prefix: string, m: int :| other == prefix + ":" + Number(m);
    if NumberedKey(key, n) == other {
      if m < 0 {
        assert other == (prefix + ":") + "-" + Itoa(-m);
        LastMark(key, Itoa(n), prefix + ":", Itoa(-m), '#', '-');
      } else {
        LastMark(key, Itoa(n), prefix, Itoa(m), '#', ':');
      }
    }
  }

  // So the keys of incidents are always unique once numbered.
  lemma IncidentKeysAreUnique(keys: seq<string>)
    requires forall i | 0 <= i < |keys| :: EndsInNumber(keys[i])
    ensures Distinct(AllNumbered(keys, |keys|))
  {
    forall i, j | 0 <= i < |keys| && 0 <= j < |keys| && Nth(keys, i) >= 2
      ensures keys[j] != NumberedKey(keys[i], Nth(keys, i))
    {
      NumberedIsNoIncidentKey(keys[i], Nth(keys, i), keys[j]);
    }
    UniqueIff(keys);
  }

  lemma IncidentKeyEndsInNumber(status: string, source: string, start: int, incident: int)
    ensures EndsInNumber(IncidentKey(status, source, start, incident))
  {
    var head := "incident:" + status + ":" + source;
    if incident != 0 {
      assert IncidentKey(status, source, start, incident) == (head + ":" + Number(start)) + ":" + Number(incident);
    } else {
      assert IncidentKey(status, source, start, incident) == head + ":" + Number(start);
    }
  }
}
