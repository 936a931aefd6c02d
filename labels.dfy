/**
 * The names of the model's binary variables.  The variable that is 1 when a
 * VM runs on a host is labelled `f"{vm}_on_{host}"`, and a solver's answer is
 * turned back into a placement by `label.split("_on_")`.
 */
module Labels {
  import opened Wrappers
  import opened Text

  /** The text between the VM id and the host id of a label. */
  const Separator: string := "_on_"

  /** `f"{vm}_on_{host}"`. */
  function Label(vm: string, host: string): (s: string)
    ensures |s| == |vm| + |Separator| + |host|
    ensures s[..|vm|] == vm && OccursAt(s, Separator, |vm|) && s[|vm| + |Separator|..] == host
  {
    vm + Separator + host
  }

  /**
   * `vm_id, host = text.split("_on_")`: the two pieces, or None when the
   * split does not give exactly two (the unpacking then raises).
   */
  function SplitLabel(text: string): (r: Option<(string, string)>)
    ensures r.Some? <==> |Split(text, Separator)| == 2
    ensures r.Some? ==> Split(text, Separator) == [r.value.0, r.value.1]
    ensures r.Some? ==> Label(r.value.0, r.value.1) == text
    ensures r.Some? ==> !Contains(r.value.0, Separator) && !Contains(r.value.1, Separator)
    ensures r.Some? ==> |r.value.0| == IndexOf(text, Separator)
  {
    var parts := Split(text, Separator);
    JoinSplit(text, Separator);
    SplitPiecesFree(text, Separator);
    if |parts| == 2 then
      assert Join(parts, Separator) == parts[0] + Separator + parts[1];
      FirstPieceEndsAtSeparator(text);
      Some((parts[0], parts[1]))
    else
      None
  }

  /** A label that splits into two pieces is cut at its first `"_on_"`. */
  lemma FirstPieceEndsAtSeparator(text: string)
    requires |Split(text, Separator)| == 2
    ensures |Split(text, Separator)[0]| == IndexOf(text, Separator)
  {
    if IndexOf(text, Separator) < 0 {
      SplitNoSep(text, Separator);
    } else {
      SplitFound(text, Separator);
    }
  }

  /** A VM id that is recovered intact from any label that begins with it. */
  predicate SafeVmId(vm: string)
  {
    !Contains(vm, Separator) && !EndsWith(vm, "_on")
  }

  /** A host id that is recovered intact from any label that ends with it. */
  predicate SafeHostId(host: string)
  {
    !Contains(host, Separator)
  }

  /** Ids without an underscore are safe on both sides of a label. */
  lemma NoUnderscoreIsSafe(id: string)
    requires '_' !in id
    ensures SafeVmId(id) && SafeHostId(id)
  {
    forall j: nat | j <= |id| ensures !OccursAt(id, Separator, j) {
      if j + 4 <= |id| {
        assert id[j..j + 4][0] == id[j];
      }
    }
    if |id| >= 3 {
      assert id[|id| - 3..][0] == id[|id| - 3];
    }
  }

  /** The first occurrence of the separator in a label of a safe VM id is right after the id. */
  lemma LabelSeparatorIndex(vm: string, host: string)
    requires SafeVmId(vm)
    ensures IndexOf(Label(vm, host), Separator) == |vm|
  {
    var s := Label(vm, host);
    assert s[|vm|] == '_' && s[|vm| + 1] == 'o' && s[|vm| + 2] == 'n' && s[|vm| + 3] == '_';
    forall j: nat | j < |vm| ensures !OccursAt(s, Separator, j) {
      if j + 4 <= |vm| {
        assert s == vm + (Separator + host);
        OccursAtPrefix(vm, Separator + host, Separator, j);
      } else if j == |vm| - 1 {
        assert s[j..j + 4][1] == '_';
      } else if j == |vm| - 2 {
        assert s[j..j + 4][2] == '_';
      } else {
        assert s[j..j + 4][..3] == vm[|vm| - 3..];
      }
    }
    assert OccursAt(s, Separator, |vm|);
    IndexOfIs(s, Separator, |vm|);
  }

  /**
   * Splitting a label gives back the VM id and the host id whenever the VM
   * id neither contains "_on_" nor ends with "_on" and the host id does not
   * contain "_on_".
   */
  lemma LabelRoundTrip(vm: string, host: string)
    requires SafeVmId(vm) && SafeHostId(host)
    ensures Split(Label(vm, host), Separator) == [vm, host]
    ensures SplitLabel(Label(vm, host)) == Some((vm, host))
  {
    var s := Label(vm, host);
    LabelSeparatorIndex(vm, host);
    assert s[..|vm|] == vm;
    assert s[|vm| + 4..] == host;
    SplitNoSep(host, Separator);
  }

  /**
   * Leaving out the condition on the end of the VM id breaks the round
   * trip: the VM "a_on" on host "h" gives "a_on_on_h", which splits into
   * "a" and "on_h", although neither id contains "_on_".
   */
  lemma LabelAmbiguity()
    ensures !Contains("a_on", Separator) && !Contains("h", Separator)
    ensures SplitLabel(Label("a_on", "h")) == Some(("a", "on_h"))
  {
    var s := Label("a_on", "h");
    assert s[1..5] == Separator;
    assert s[0..4][0] == 'a';
    IndexOfIs(s, Separator, 1);
    assert s[..1] == "a" && s[5..] == "on_h";
    ShortNotContained("on_h");
    ShortNotContained("a_on");
    ShortNotContained("h");
    SplitNoSep("on_h", Separator);
    assert Split(s, Separator) == ["a", "on_h"];
  }

  /** A string no longer than the separator contains it only by being it. */
  lemma ShortNotContained(t: string)
    requires |t| <= |Separator| && (|t| == |Separator| ==> t[0] != '_')
    ensures !Contains(t, Separator)
  {
    forall j: nat | j <= |t| ensures !OccursAt(t, Separator, j) {
      if j == 0 && |t| == 4 {
        assert t[0..4][0] == t[0];
      }
    }
  }

  /** Labels of safe ids are equal only when both ids are. */
  lemma LabelInjective(v1: string, h1: string, v2: string, h2: string)
    requires SafeVmId(v1) && SafeHostId(h1) && SafeVmId(v2) && SafeHostId(h2)
    requires Label(v1, h1) == Label(v2, h2)
    ensures v1 == v2 && h1 == h2
  {
    LabelRoundTrip(v1, h1);
    LabelRoundTrip(v2, h2);
  }

  /** For a fixed host, labels differ whenever the VM ids do, with no condition on the ids. */
  lemma LabelInjectiveForHost(v1: string, v2: string, host: string)
    requires Label(v1, host) == Label(v2, host)
    ensures v1 == v2
  {
    var s := Label(v1, host);
    assert |v1| == |v2|;
    assert v1 == s[..|v1|];
    assert v2 == s[..|v2|];
  }

  /** `prefix + x` determines `x`: the labels "cpu_h", "mem_h" and "discrete_v" are distinct per id. */
  lemma PrefixInjective(prefix: string, x: string, y: string)
    requires prefix + x == prefix + y
    ensures x == y
  {
    assert x == (prefix + x)[|prefix|..];
    assert y == (prefix + y)[|prefix|..];
  }
}
