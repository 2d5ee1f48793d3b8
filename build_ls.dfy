/** The generator of the localization `Dictionary` Go struct (tools/build-ls.ts).
    Given the keys of the English localization JSON object it emits a Go source
    file: a fixed header, one tagged string field per key in sorted key order,
    and a closing brace. Reading and writing files, `JSON.parse` and the
    `camelcase` library are outside the model: the keys come in as a sequence
    and `pascalCase` is a parameter. */
module DictionaryGenerator {

  const TypeName: string := "Dictionary"

  /** The file header: the "do not edit" comment and the package clause. */
  const FileHeader: string :=
    "/** DO NOT EDIT. This file was automatically generated by `/tools/build-ls.ts`. */\n\npackage localization\n\n"

  /** The doc comment of the generated struct. */
  const DocComment: string := "// " + TypeName + " contains entries defined in app localized strings.\n"

  const StructOpen: string := "type " + TypeName + " struct {\n"

  const StructClose: string := "}\n"

  // ---------------------------------------------------------------------------
  // String order used by `Array.prototype.sort()` without a comparator
  // ---------------------------------------------------------------------------

  /** Lexicographic order on strings, character by character; a prefix comes first. */
  predicate LessEq(a: string, b: string)
    decreases |a|
  {
    |a| == 0 || (|b| > 0 && (a[0] < b[0] || (a[0] == b[0] && LessEq(a[1..], b[1..]))))
  }

  lemma {:induction false} LessEqReflexive(a: string)
    ensures LessEq(a, a)
    decreases |a|
  {
    if |a| > 0 { LessEqReflexive(a[1..]); }
  }

  lemma {:induction false} LessEqTotal(a: string, b: string)
    ensures LessEq(a, b) || LessEq(b, a)
    decreases |a|
  {
    if |a| > 0 && |b| > 0 && a[0] == b[0] { LessEqTotal(a[1..], b[1..]); }
  }

  lemma {:induction false} LessEqAntisymmetric(a: string, b: string)
    requires LessEq(a, b) && LessEq(b, a)
    ensures a == b
    decreases |a|
  {
    if |a| > 0 {
      LessEqAntisymmetric(a[1..], b[1..]);
      assert a == [a[0]] + a[1..] && b == [b[0]] + b[1..];
    }
  }

  lemma {:induction false} LessEqTransitive(a: string, b: string, c: string)
    requires LessEq(a, b) && LessEq(b, c)
    ensures LessEq(a, c)
    decreases |a|
  {
    if |a| > 0 && a[0] == b[0] && b[0] == c[0] { LessEqTransitive(a[1..], b[1..], c[1..]); }
  }

  predicate Sorted(s: seq<string>)
  {
    forall i, j :: 0 <= i < j < |s| ==> LessEq(s[i], s[j])
  }

  /** The keys of a JavaScript object never repeat. */
  predicate Distinct(s: seq<string>)
  {
    forall i, j :: 0 <= i < j < |s| ==> s[i] != s[j]
  }

  /** A sorted sequence stays sorted when an element below all of its elements is put in front. */
  lemma PrependSmallest(y: string, r: seq<string>)
    requires Sorted(r)
    requires forall z :: z in r ==> LessEq(y, z)
    ensures Sorted([y] + r)
  {
    var s := [y] + r;
    forall i, j | 0 <= i < j < |s| ensures LessEq(s[i], s[j]) {
      if i > 0 {
        assert s[i] == r[i - 1] && s[j] == r[j - 1];
      } else {
        assert s[j] == r[j - 1] && s[j] in r;
      }
    }
  }

  /** Inserts `x` into a sorted sequence at its place. */
  function Insert(x: string, s: seq<string>): (r: seq<string>)
    requires Sorted(s)
    ensures Sorted(r)
    ensures multiset(r) == multiset(s) + multiset{x}
    decreases |s|
  {
    if |s| == 0 then [x]
    else if LessEq(x, s[0]) then
      assert forall z :: z in s ==> LessEq(x, z) by {
        forall z | z in s ensures LessEq(x, z) {
          var j :| 0 <= j < |s| && s[j] == z;
          if j > 0 { LessEqTransitive(x, s[0], z); }
        }
      }
      PrependSmallest(x, s);
      [x] + s
    else
      var rest := Insert(x, s[1..]);
      assert s == [s[0]] + s[1..];
      LessEqTotal(x, s[0]);
      assert forall z :: z in rest ==> LessEq(s[0], z) by {
        forall z | z in rest ensures LessEq(s[0], z) {
          assert z in multiset(rest);
          if z != x {
            assert z in multiset(s[1..]);
            var j :| 0 <= j < |s[1..]| && s[1..][j] == z;
            assert s[j + 1] == z;
          }
        }
      }
      PrependSmallest(s[0], rest);
      [s[0]] + rest
  }

  /** `Object.keys(ls).sort()`: the keys in ascending string order. */
  function SortStrings(s: seq<string>): (r: seq<string>)
    ensures Sorted(r)
    ensures multiset(r) == multiset(s)
  {
    if |s| == 0 then []
    else
      assert s == [s[0]] + s[1..];
      Insert(s[0], SortStrings(s[1..]))
  }

  /** The tail of a sorted sequence is sorted. */
  lemma SortedTail(s: seq<string>)
    requires |s| > 0 && Sorted(s)
    ensures Sorted(s[1..])
  {
    forall p, q | 0 <= p < q < |s[1..]| ensures LessEq(s[1..][p], s[1..][q]) {
      assert s[1..][p] == s[p + 1] && s[1..][q] == s[q + 1];
    }
  }

  /** The head of a sorted sequence is below each of its elements. */
  lemma SortedHeadIsLeast(s: seq<string>, x: string)
    requires Sorted(s) && x in multiset(s)
    ensures LessEq(s[0], x)
  {
    var j :| 0 <= j < |s| && s[j] == x;
    if j == 0 { LessEqReflexive(x); }
  }

  /** Dropping the head drops one occurrence of it. */
  lemma MultisetTail(s: seq<string>)
    requires |s| > 0
    ensures multiset(s[1..]) == multiset(s) - multiset{s[0]}
    ensures s[0] in multiset(s)
  {
    assert s == [s[0]] + s[1..];
  }

  /** Two sorted arrangements of the same elements are the same sequence, so
      any correct sort yields the order that SortStrings yields. */
  lemma {:induction false} SortedUnique(a: seq<string>, b: seq<string>)
    requires Sorted(a) && Sorted(b)
    requires multiset(a) == multiset(b)
    ensures a == b
    decreases |a|
  {
    assert |a| == |multiset(a)| == |multiset(b)| == |b|;
    if |a| > 0 {
      MultisetTail(a);
      MultisetTail(b);
      SortedHeadIsLeast(b, a[0]);
      SortedHeadIsLeast(a, b[0]);
      LessEqAntisymmetric(a[0], b[0]);
      SortedTail(a);
      SortedTail(b);
      SortedUnique(a[1..], b[1..]);
      assert a == [a[0]] + a[1..] && b == [b[0]] + b[1..];
    }
  }

  /** In a sequence without repetitions every element occurs exactly once. */
  lemma {:induction false} DistinctOccursOnce(s: seq<string>, x: string)
    requires Distinct(s)
    ensures multiset(s)[x] == if x in s then 1 else 0
    decreases |s|
  {
    if |s| > 0 {
      assert s == [s[0]] + s[1..];
      assert Distinct(s[1..]) by {
        forall p, q | 0 <= p < q < |s[1..]| ensures s[1..][p] != s[1..][q] {
          assert s[1..][p] == s[p + 1] && s[1..][q] == s[q + 1];
        }
      }
      assert s[0] !in s[1..] by {
        forall j | 0 <= j < |s[1..]| ensures s[1..][j] != s[0] {
          assert s[1..][j] == s[j + 1];
        }
      }
      DistinctOccursOnce(s[1..], x);
    }
  }

  /** An element at two positions occurs at least twice. */
  lemma RepeatedOccursTwice(s: seq<string>, i: nat, j: nat)
    requires i < j < |s| && s[i] == s[j]
    ensures multiset(s)[s[i]] >= 2
  {
    assert s == s[..j] + s[j..];
    assert s[i] == s[..j][i];
    assert s[j] == s[j..][0];
  }

  // ---------------------------------------------------------------------------
  // The emitted text
  // ---------------------------------------------------------------------------

  /** The field line of one key: the Go identifier, the type and a json tag
      that carries the key verbatim. */
  function FieldLine(pascalCase: string -> string, key: string): string
  {
    "\t" + pascalCase(key) + " string `json:\"" + key + "\"`\n"
  }

  /** The field lines of the keys, in the order of the keys. */
  function FieldLines(pascalCase: string -> string, keys: seq<string>): (lines: seq<string>)
    ensures |lines| == |keys|
    ensures forall i :: 0 <= i < |keys| ==> lines[i] == FieldLine(pascalCase, keys[i])
  {
    if |keys| == 0 then []
    else FieldLines(pascalCase, keys[..|keys| - 1]) + [FieldLine(pascalCase, keys[|keys| - 1])]
  }

  /** The concatenation of a sequence of lines. */
  function Concat(lines: seq<string>): string
  {
    if |lines| == 0 then "" else Concat(lines[..|lines| - 1]) + lines[|lines| - 1]
  }

  lemma ConcatSnoc(lines: seq<string>, line: string)
    ensures Concat(lines + [line]) == Concat(lines) + line
  {
    assert (lines + [line])[..|lines|] == lines;
  }

  /** Extending the keys by one extends the emitted field text by that key's line. */
  lemma FieldLinesStep(pascalCase: string -> string, keys: seq<string>, i: nat)
    requires i < |keys|
    ensures Concat(FieldLines(pascalCase, keys[..i + 1]))
         == Concat(FieldLines(pascalCase, keys[..i])) + FieldLine(pascalCase, keys[i])
  {
    assert keys[..i + 1][..i] == keys[..i];
    ConcatSnoc(FieldLines(pascalCase, keys[..i]), FieldLine(pascalCase, keys[i]));
  }

  lemma AppendLine(prefix: string, body: string, line: string)
    ensures (prefix + body) + line == prefix + (body + line)
  {
  }

  /** The generated Go source for keys already in their final order. */
  function GeneratedSource(pascalCase: string -> string, orderedKeys: seq<string>): string
  {
    FileHeader + DocComment + StructOpen + Concat(FieldLines(pascalCase, orderedKeys)) + StructClose
  }

  /** The body of the generator (tools/build-ls.ts:11-28): the result string is
      grown by `+=`, first by the fixed header lines, then by one field line per
      sorted key, then by the closing brace. */
  method BuildDictionarySource(keys: seq<string>, pascalCase: string -> string) returns (result: string)
    ensures result == GeneratedSource(pascalCase, SortStrings(keys))
  {
    result := FileHeader;
    result := result + DocComment;
    result := result + StructOpen;
    var sorted := SortStrings(keys);
    for i := 0 to |sorted|
      invariant result == FileHeader + DocComment + StructOpen + Concat(FieldLines(pascalCase, sorted[..i]))
    {
      var line := FieldLine(pascalCase, sorted[i]);
      FieldLinesStep(pascalCase, sorted, i);
      AppendLine(FileHeader + DocComment + StructOpen, Concat(FieldLines(pascalCase, sorted[..i])), line);
      result := result + line;
    }
    assert sorted[..|sorted|] == sorted;
    result := result + StructClose;
  }

  // ---------------------------------------------------------------------------
  // Properties of the generated source
  // ---------------------------------------------------------------------------

  /** The output opens with the header, the doc comment and the struct opening,
      and ends with the closing brace. */
  lemma SourceFraming(pascalCase: string -> string, keys: seq<string>)
    ensures var out := GeneratedSource(pascalCase, SortStrings(keys));
      && |out| >= |FileHeader| + |DocComment| + |StructOpen| + |StructClose|
      && out[..|FileHeader|] == FileHeader
      && out[|FileHeader|..|FileHeader| + |DocComment|] == DocComment
      && out[|FileHeader| + |DocComment|..|FileHeader| + |DocComment| + |StructOpen|] == StructOpen
      && out[|out| - |StructClose|..] == StructClose
  {
    var body := Concat(FieldLines(pascalCase, SortStrings(keys)));
    FiveParts(FileHeader, DocComment, StructOpen, body, StructClose);
  }

  /** The parts of a five-part concatenation sit at their offsets. */
  lemma FiveParts(h: string, d: string, o: string, body: string, c: string)
    ensures var out := h + d + o + body + c;
      && |out| == |h| + |d| + |o| + |body| + |c|
      && out[..|h|] == h
      && out[|h|..|h| + |d|] == d
      && out[|h| + |d|..|h| + |d| + |o|] == o
      && out[|out| - |c|..] == c
  {
    var out := h + d + o + body + c;
    assert out == h + (d + (o + (body + c)));
  }

  /** Exactly one field line per key, the lines in strictly ascending key order,
      each line carrying its key verbatim in the json tag. */
  lemma {:induction false} OneFieldLinePerKeyInOrder(pascalCase: string -> string, keys: seq<string>)
    requires Distinct(keys)
    ensures var sorted := SortStrings(keys);
      var lines := FieldLines(pascalCase, sorted);
      |lines| == |keys| &&
      (forall k :: k in keys <==> k in sorted) &&
      (forall i, j :: 0 <= i < j < |sorted| ==> LessEq(sorted[i], sorted[j]) && sorted[i] != sorted[j]) &&
      (forall i :: 0 <= i < |sorted| ==>
         lines[i] == "\t" + pascalCase(sorted[i]) + " string `json:\"" + sorted[i] + "\"`\n")
  {
    var sorted := SortStrings(keys);
    assert |sorted| == |multiset(sorted)| == |multiset(keys)| == |keys|;
    forall k ensures k in keys <==> k in sorted {
      assert k in keys <==> k in multiset(keys);
      assert k in sorted <==> k in multiset(sorted);
    }
    forall i, j | 0 <= i < j < |sorted| ensures sorted[i] != sorted[j] {
      if sorted[i] == sorted[j] {
        RepeatedOccursTwice(sorted, i, j);
        DistinctOccursOnce(keys, sorted[i]);
        assert false;
      }
    }
  }

  /** The output depends only on the set of keys: neither on the order in which
      the object listed them nor on anything else of the object. */
  lemma OutputDependsOnlyOnKeySet(pascalCase: string -> string, keys1: seq<string>, keys2: seq<string>)
    requires Distinct(keys1) && Distinct(keys2)
    requires forall k :: k in keys1 <==> k in keys2
    ensures GeneratedSource(pascalCase, SortStrings(keys1)) == GeneratedSource(pascalCase, SortStrings(keys2))
  {
    forall x ensures multiset(keys1)[x] == multiset(keys2)[x] {
      DistinctOccursOnce(keys1, x);
      DistinctOccursOnce(keys2, x);
    }
    assert multiset(keys1) == multiset(keys2);
    SortedUnique(SortStrings(keys1), SortStrings(keys2));
  }
}
