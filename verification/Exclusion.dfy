/**
 The DaemonJob's list of excluded nodes: its text, the fields splitString makes of it and
 the search for a node name (pkg/controller/daemonjob_controller.go:125-143).
 */
module Exclusion {
  import opened Strings

  /** The text without spaces, cut at the commas. */
  function Fields(text: string): seq<string> {
    Split(Without(text, ' '), ',')
  }

  /** Go's order of strings. */
  predicate AtMost(a: string, b: string) {
    a == "" || (b != "" && (a[0] < b[0] || (a[0] == b[0] && AtMost(a[1..], b[1..]))))
  }

  /** One string is a beginning of the other, or the first character in which they differ decides. */
  lemma {:induction false} OrderMeans(a: string, b: string)
    ensures AtMost(a, b) <==> a <= b || exists i :: 0 <= i < |a| && i < |b| && a[..i] == b[..i] && a[i] < b[i]
  {
    if a != "" && b != "" {
      OrderMeans(a[1..], b[1..]);
      if a[0] == b[0] {
        assert a <= b <==> a[1..] <= b[1..];
        if i :| 0 <= i < |a| - 1 && i < |b| - 1 && a[1..][..i] == b[1..][..i] && a[1..][i] < b[1..][i] {
          assert a[..i + 1] == [a[0]] + a[1..][..i] && b[..i + 1] == [b[0]] + b[1..][..i];
          assert a[..i + 1] == b[..i + 1] && a[i + 1] < b[i + 1];
        }
        if i :| 0 <= i < |a| && i < |b| && a[..i] == b[..i] && a[i] < b[i] {
          assert i > 0;
          assert a[1..][..i - 1] == a[..i][1..] && b[1..][..i - 1] == b[..i][1..];
          assert a[1..][..i - 1] == b[1..][..i - 1] && a[1..][i - 1] < b[1..][i - 1];
        }
      } else if a[0] < b[0] {
        assert a[..0] == b[..0];
      }
    }
  }

  ghost predicate Sorted(s: seq<string>) {
    forall i, j :: 0 <= i < j < |s| ==> AtMost(s[i], s[j])
  }

  lemma {:induction false} Total(a: string, b: string)
    ensures AtMost(a, b) || AtMost(b, a)
  {
    if a != "" && b != "" && a[0] == b[0] {
      Total(a[1..], b[1..]);
    }
  }

  lemma {:induction false} Transitive(a: string, b: string, c: string)
    requires AtMost(a, b) && AtMost(b, c)
    ensures AtMost(a, c)
  {
    if a != "" && a[0] == b[0] == c[0] {
      Transitive(a[1..], b[1..], c[1..]);
    }
  }

  /** The library's sort, as an insertion sort. */
  method Sort(a: array<string>)
    modifies a
    ensures Sorted(a[..]) && multiset(a[..]) == multiset(old(a[..]))
  {
    for i := 0 to a.Length
      invariant Sorted(a[..i]) && multiset(a[..]) == multiset(old(a[..]))
    {
      Insert(a, i);
    }
    assert a[..] == a[..a.Length];
  }

  method Swap(a: array<string>, j: nat)
    requires 0 < j < a.Length
    modifies a
    ensures a[j - 1] == old(a[j]) && a[j] == old(a[j - 1])
    ensures forall i :: 0 <= i < a.Length && i != j - 1 && i != j ==> a[i] == old(a[i])
    ensures multiset(a[..]) == multiset(old(a[..]))
  {
    a[j - 1], a[j] := a[j], a[j - 1];
  }

  method Insert(a: array<string>, n: nat)
    requires n < a.Length && Sorted(a[..n])
    modifies a
    ensures Sorted(a[..n + 1]) && multiset(a[..]) == multiset(old(a[..]))
  {
    hide AtMost;
    var j := n;
    while j > 0 && !AtMost(a[j - 1], a[j])
      invariant j <= n && multiset(a[..]) == multiset(old(a[..]))
      invariant forall p, q :: 0 <= p < q <= n && q != j ==> AtMost(a[p], a[q])
    {
      Total(a[j - 1], a[j]);
      Swap(a, j);
      j := j - 1;
    }
    forall p | 0 <= p < j
      ensures AtMost(a[p], a[j])
    {
      if p < j - 1 {
        Transitive(a[p], a[j - 1], a[j]);
      }
    }
  }

  /** daemonjob_controller.go:125-133 */
  method SplitString(input: string, separator: char) returns (result: array<string>)
    ensures fresh(result) && Sorted(result[..])
    ensures multiset(result[..]) == multiset(Split(Without(input, ' '), separator))
    ensures forall node :: node in result[..] <==> node in Split(Without(input, ' '), separator)
  {
    var text := Without(input, ' ');
    var fields := Split(text, separator);
    result := new string[|fields|](i requires 0 <= i < |fields| => fields[i]);
    assert result[..] == fields;
    Sort(result);
    forall node
      ensures node in result[..] <==> node in fields
    {
      assert node in result[..] <==> node in multiset(result[..]);
      assert node in fields <==> node in multiset(fields);
    }
  }

  /** daemonjob_controller.go:136-143 */
  method IsJumpOverNode(node: string, excludeNodeList: array<string>) returns (jump: bool)
    ensures jump <==> node in excludeNodeList[..]
  {
    for i := 0 to excludeNodeList.Length
      invariant node !in excludeNodeList[..i]
    {
      if node == excludeNodeList[i] {
        return true;
      }
    }
    assert excludeNodeList[..] == excludeNodeList[..excludeNodeList.Length];
    jump := false;
  }

  /** A node that the list names is skipped. */
  predicate Excluded(node: string, text: string) {
    node in Fields(text)
  }

  /** The names as a user writes them. */
  ghost predicate CleanNames(names: seq<string>) {
    Free(names, ',') && Free(names, ' ')
  }

  lemma {:induction false} SpacesGone(names: seq<string>)
    requires Free(names, ' ')
    ensures Without(Join(names, ", "), ' ') == Join(names, ",")
  {
    if |names| > 0 {
      WithoutClean(names[0], ' ');
      if |names| > 1 {
        var rest := names[1..];
        SpacesGone(rest);
        WithoutAppend(names[0] + ", ", Join(rest, ", "), ' ');
        WithoutAppend(names[0], ", ", ' ');
        assert Without(", ", ' ') == "," + Without(" ", ' ') == ",";
      }
    }
  }

  /** Writing names and parsing them gives them back; no names at all gives one empty field. */
  lemma FieldsOfList(names: seq<string>)
    requires CleanNames(names)
    ensures Fields(Join(names, ", ")) == if names == [] then [""] else names
  {
    SpacesGone(names);
    if names != [] {
      SplitJoin(names, ',');
    }
  }

  /** A node with a name is skipped exactly when it was listed. */
  lemma SkippedExactly(names: seq<string>, node: string)
    requires CleanNames(names) && node != ""
    ensures Excluded(node, Join(names, ", ")) <==> node in names
  {
    FieldsOfList(names);
  }

  lemma {:induction false} SpacesAreGone(s: string, c: char)
    ensures c !in Without(s, c)
  {
    if s != "" {
      SpacesAreGone(s[1..], c);
    }
  }

  lemma {:induction false} JoinHolds(fields: seq<string>, sep: string, i: nat, c: char)
    requires i < |fields| && c in fields[i]
    ensures c in Join(fields, sep)
  {
    if i > 0 {
      JoinHolds(fields[1..], sep, i - 1, c);
    }
  }

  /** Whatever the text, no field has a comma or a space, so a node of such a name cannot be excluded. */
  lemma FieldsAreClean(text: string)
    ensures CleanNames(Fields(text))
  {
    var clean, fields := Without(text, ' '), Fields(text);
    JoinSplit(clean, ',');
    SpacesAreGone(text, ' ');
    forall i | 0 <= i < |fields|
      ensures ' ' !in fields[i]
    {
      if ' ' in fields[i] {
        JoinHolds(fields, ",", i, ' ');
      }
    }
  }
}
