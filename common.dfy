/** Small value types and the JavaScript string operations the editor relies on
    (startsWith, endsWith, includes, Number.prototype.toString(radix), padStart). */
module Common {

  datatype Option<T> = None | Some(value: T)

  datatype Result<T, E> = Ok(value: T) | Err(error: E)

  /** `s.startsWith(p)`: the first |p| characters of `s` are `p`. */
  predicate StartsWith(s: string, p: string)
  {
    |p| <= |s| && s[..|p|] == p
  }

  /** `s.endsWith(suffix)` */
  predicate EndsWith(s: string, suffix: string)
  {
    |suffix| <= |s| && s[|s| - |suffix|..] == suffix
  }

  /** `s.includes(sub)` */
  predicate Contains(s: string, sub: string)
    decreases |s|
  {
    StartsWith(s, sub) || (|s| > 0 && Contains(s[1..], sub))
  }

  /** `includes` holds exactly when `sub` occurs at some position of `s`. */
  lemma {:induction false} ContainsAt(s: string, sub: string, i: nat)
    requires i + |sub| <= |s| && s[i..i + |sub|] == sub
    ensures Contains(s, sub)
    decreases i
  {
    if i == 0 {
      assert s[..|sub|] == s[0..|sub|];
    } else {
      assert s[1..][i - 1..i - 1 + |sub|] == s[i..i + |sub|];
      ContainsAt(s[1..], sub, i - 1);
    }
  }

  /** ... and only then. */
  lemma {:induction false} ContainsWitness(s: string, sub: string) returns (i: nat)
    requires Contains(s, sub)
    ensures i + |sub| <= |s| && s[i..i + |sub|] == sub
    decreases |s|
  {
    if StartsWith(s, sub) {
      i := 0;
      assert s[0..|sub|] == s[..|sub|];
    } else {
      var j := ContainsWitness(s[1..], sub);
      i := j + 1;
      assert s[i..i + |sub|] == s[1..][j..j + |sub|];
    }
  }

  /** Characters of `Number.prototype.toString(radix)` for radix up to 16 (lower case). */
  const DigitChars: string := "0123456789abcdef"

  function DigitValue(c: char): (v: Option<nat>)
    ensures v.Some? ==> v.value < 16 && DigitChars[v.value] == c
  {
    if '0' <= c <= '9' then Some(c as int - '0' as int)
    else if 'a' <= c <= 'f' then Some(c as int - 'a' as int + 10)
    else None
  }

  /** `n.toString(radix)` for a non-negative integer and radix 2..16. */
  function ToRadix(n: nat, radix: nat): string
    requires 2 <= radix <= 16
    decreases n
  {
    if n < radix then [DigitChars[n]] else ToRadix(n / radix, radix) + [DigitChars[n % radix]]
  }

  /** Every character is a digit below `radix`. */
  predicate AllDigits(s: string, radix: nat)
  {
    forall i :: 0 <= i < |s| ==> DigitValue(s[i]).Some? && DigitValue(s[i]).value < radix
  }

  /** The value of a string of digits in base `radix` (the inverse of ToRadix). */
  function ParseRadix(s: string, radix: nat): nat
    requires AllDigits(s, radix)
    decreases |s|
  {
    if |s| == 0 then 0
    else ParseRadix(s[..|s| - 1], radix) * radix + DigitValue(s[|s| - 1]).value
  }

  lemma DigitRoundTrip(d: nat)
    requires d < 16
    ensures DigitValue(DigitChars[d]) == Some(d)
  {
  }

  /** ToRadix yields a non-empty digit string whose value is `n`. */
  lemma {:induction false} ToRadixRoundTrip(n: nat, radix: nat)
    requires 2 <= radix <= 16
    ensures |ToRadix(n, radix)| >= 1
    ensures AllDigits(ToRadix(n, radix), radix)
    ensures ParseRadix(ToRadix(n, radix), radix) == n
    decreases n
  {
    if n < radix {
      AppendDigit([], n, radix);
      assert ToRadix(n, radix) == [] + [DigitChars[n]];
    } else {
      ToRadixRoundTrip(n / radix, radix);
      ToRadixStep(n, radix);
    }
  }

  lemma ToRadixStep(n: nat, radix: nat)
    requires 2 <= radix <= 16 && n >= radix
    requires AllDigits(ToRadix(n / radix, radix), radix)
    requires ParseRadix(ToRadix(n / radix, radix), radix) == n / radix
    ensures AllDigits(ToRadix(n, radix), radix)
    ensures ParseRadix(ToRadix(n, radix), radix) == n
  {
    var q, d := n / radix, n % radix;
    AppendDigit(ToRadix(q, radix), d, radix);
    DivMod(n, radix);
  }

  lemma DivMod(n: nat, radix: nat)
    requires radix > 0
    ensures n == (n / radix) * radix + n % radix
  {
  }

  /** Appending one digit multiplies the value by the radix and adds the digit. */
  lemma AppendDigit(prefix: string, d: nat, radix: nat)
    requires 2 <= radix <= 16 && d < radix && AllDigits(prefix, radix)
    ensures AllDigits(prefix + [DigitChars[d]], radix)
    ensures ParseRadix(prefix + [DigitChars[d]], radix) == ParseRadix(prefix, radix) * radix + d
  {
    DigitRoundTrip(d);
    var s := prefix + [DigitChars[d]];
    assert s[..|s| - 1] == prefix;
    assert AllDigits(s, radix) by {
      forall i | 0 <= i < |s| ensures DigitValue(s[i]).Some? && DigitValue(s[i]).value < radix {
        if i < |prefix| { assert s[i] == prefix[i]; }
      }
    }
  }

  /** Distinct numbers are written as distinct strings. */
  lemma ToRadixInjective(m: nat, n: nat, radix: nat)
    requires 2 <= radix <= 16 && m != n
    ensures ToRadix(m, radix) != ToRadix(n, radix)
  {
    ToRadixRoundTrip(m, radix);
    ToRadixRoundTrip(n, radix);
  }

  /** The digit count of `n` in base 16 is at most 8 when `n < 2^32`. */
  lemma {:induction false} HexLength(n: nat, bound: nat, width: nat)
    requires n < bound && bound == Pow16(width) && width >= 1
    ensures |ToRadix(n, 16)| <= width
    decreases width
  {
    if n >= 16 {
      assert width != 1 by { assert Pow16(1) == 16; }
      assert Pow16(width) == 16 * Pow16(width - 1);
      HexLength(n / 16, Pow16(width - 1), width - 1);
    }
  }

  function Pow16(k: nat): nat
  {
    if k == 0 then 1 else 16 * Pow16(k - 1)
  }

  function RepeatChar(c: char, k: nat): (r: string)
    ensures |r| == k && forall i :: 0 <= i < k ==> r[i] == c
  {
    if k == 0 then [] else [c] + RepeatChar(c, k - 1)
  }

  /** `s.padStart(width, fill)` with a one-character fill string. */
  function PadStart(s: string, width: nat, fill: char): (r: string)
    ensures |r| == if |s| >= width then |s| else width
    ensures r[|r| - |s|..] == s
    ensures forall i :: 0 <= i < |r| - |s| ==> r[i] == fill
  {
    if |s| >= width then s else RepeatChar(fill, width - |s|) + s
  }

  /** Leading zeros do not change the value of a digit string. */
  lemma {:induction false} LeadingZeros(k: nat, s: string, radix: nat)
    requires 2 <= radix <= 16 && AllDigits(s, radix)
    ensures AllDigits(RepeatChar('0', k) + s, radix)
    ensures ParseRadix(RepeatChar('0', k) + s, radix) == ParseRadix(s, radix)
    decreases |s|
  {
    var z := RepeatChar('0', k) + s;
    assert AllDigits(z, radix) by {
      forall i | 0 <= i < |z| ensures DigitValue(z[i]).Some? && DigitValue(z[i]).value < radix {
        if i >= k { assert z[i] == s[i - k]; }
      }
    }
    if |s| == 0 {
      ZerosValue(k, radix);
      assert z == RepeatChar('0', k);
    } else {
      assert z[..|z| - 1] == RepeatChar('0', k) + s[..|s| - 1];
      LeadingZeros(k, s[..|s| - 1], radix);
    }
  }

  lemma {:induction false} ZerosValue(k: nat, radix: nat)
    requires 2 <= radix <= 16
    ensures AllDigits(RepeatChar('0', k), radix) && ParseRadix(RepeatChar('0', k), radix) == 0
    decreases k
  {
    if k > 0 {
      ZerosValue(k - 1, radix);
      var z := RepeatChar('0', k);
      assert z[..k - 1] == RepeatChar('0', k - 1) by {
        assert z == RepeatChar('0', k - 1) + ['0'] by {
          assert |z| == |RepeatChar('0', k - 1) + ['0']|;
        }
      }
    }
  }

  // ---------------------------------------------------------------------------
  // Insertion-ordered maps (JavaScript `Map`, and object records), as entry lists

  type Entries<K, V> = seq<(K, V)>

  predicate DistinctKeys<K(==), V>(m: Entries<K, V>)
  {
    forall i, j :: 0 <= i < j < |m| ==> m[i].0 != m[j].0
  }

  function Keys<K, V>(m: Entries<K, V>): (ks: seq<K>)
    ensures |ks| == |m| && forall i :: 0 <= i < |m| ==> ks[i] == m[i].0
  {
    if |m| == 0 then [] else [m[0].0] + Keys(m[1..])
  }

  /** `map.get(k)`: the value of the first entry with key `k`. */
  function Get<K(==), V(==)>(m: Entries<K, V>, k: K): (r: Option<V>)
    ensures r.Some? ==> |m| > 0
  {
    if |m| == 0 then None
    else if m[0].0 == k then Some(m[0].1)
    else Get(m[1..], k)
  }

  /** `map.set(k, v)`: an existing key keeps its position and takes the new value;
      a new key is appended. */
  function Set<K(==), V(==)>(m: Entries<K, V>, k: K, v: V): (r: Entries<K, V>)
    ensures |r| >= 1
    decreases |m|
  {
    if |m| == 0 then [(k, v)]
    else if m[0].0 == k then [(k, v)] + m[1..]
    else [m[0]] + Set(m[1..], k, v)
  }

  /** `get` finds nothing exactly when no entry has the key, and what it finds is
      the value of an entry with that key. */
  lemma {:induction false} GetSpec<K, V>(m: Entries<K, V>, k: K)
    ensures Get(m, k).None? <==> forall i :: 0 <= i < |m| ==> m[i].0 != k
    ensures Get(m, k).Some? ==> exists i :: 0 <= i < |m| && m[i] == (k, Get(m, k).value)
    decreases |m|
  {
    if |m| > 0 && m[0].0 != k {
      GetSpec(m[1..], k);
      if Get(m, k).Some? {
        var i :| 0 <= i < |m[1..]| && m[1..][i] == (k, Get(m, k).value);
        assert m[i + 1] == m[1..][i];
      }
      assert forall i :: 0 < i < |m| ==> m[i] == m[1..][i - 1];
    }
  }

  /** `set` of an existing key keeps the length; a new key is appended. */
  lemma {:induction false} SetSpec<K, V>(m: Entries<K, V>, k: K, v: V)
    ensures |Set(m, k, v)| == |m| + (if Get(m, k).None? then 1 else 0)
    ensures Get(m, k).None? ==> Set(m, k, v) == m + [(k, v)]
    decreases |m|
  {
    if |m| > 0 && m[0].0 != k {
      SetSpec(m[1..], k, v);
      if Get(m, k).None? {
        assert [m[0]] + (m[1..] + [(k, v)]) == m + [(k, v)];
      }
    }
  }

  /** `set` then `get` of the same key yields the value stored; other keys are
      unaffected; distinct keys stay distinct. */
  lemma {:induction false} GetSet<K, V>(m: Entries<K, V>, k: K, v: V, k': K)
    ensures Get(Set(m, k, v), k) == Some(v)
    ensures k' != k ==> Get(Set(m, k, v), k') == Get(m, k')
    decreases |m|
  {
    if |m| > 0 && m[0].0 != k {
      GetSet(m[1..], k, v, k');
      assert Set(m, k, v)[1..] == Set(m[1..], k, v);
    }
  }

  /** `set` appends the key when it is new and leaves the key list alone otherwise. */
  lemma {:induction false} SetKeys<K, V>(m: Entries<K, V>, k: K, v: V)
    ensures Keys(Set(m, k, v)) == if Get(m, k).None? then Keys(m) + [k] else Keys(m)
    decreases |m|
  {
    if |m| > 0 {
      if m[0].0 == k {
        assert Keys(Set(m, k, v)) == Keys(m);
      } else {
        SetKeys(m[1..], k, v);
        var tail := Set(m[1..], k, v);
        assert Set(m, k, v) == [m[0]] + tail;
        assert Keys(Set(m, k, v)) == [m[0].0] + Keys(tail);
        assert Keys(m) == [m[0].0] + Keys(m[1..]);
      }
    }
  }

  lemma SetKeepsDistinct<K, V>(m: Entries<K, V>, k: K, v: V)
    requires DistinctKeys(m)
    ensures DistinctKeys(Set(m, k, v))
    ensures Keys(Set(m, k, v)) == if Get(m, k).None? then Keys(m) + [k] else Keys(m)
  {
    SetKeys(m, k, v);
    GetSpec(m, k);
    var r := Set(m, k, v);
    var ks := Keys(r);
    forall i, j | 0 <= i < j < |r| ensures r[i].0 != r[j].0 {
      assert r[i].0 == ks[i] && r[j].0 == ks[j];
      if j < |m| {
        assert ks[i] == Keys(m)[i] == m[i].0 && ks[j] == Keys(m)[j] == m[j].0;
      } else {
        assert Get(m, k).None? && ks[j] == k && ks[i] == Keys(m)[i] == m[i].0;
      }
    }
  }
}
