/** `normalize_pypi_packages`: drops the requirements that name the plugin
    itself and cuts direct-URL references (`name @ url`) down to the text
    before the first `@`. */
module Normalize {
  import opened Text

  /** The plugin's own distribution name; a requirement mentioning it is dropped. */
  const SelfName: string := "hatch-conda-build"

  /** The requirement mentions the plugin anywhere in its text. */
  predicate IsSelfReference(package: string)
  {
    HasSubstring(package, SelfName)
  }

  /** The rewrite applied to a requirement that survives the filter. */
  function Truncate(package: string): (r: string)
    ensures '@' !in r
    ensures '@' in package ==> |r| < |package| && r == package[..|r|] && package[|r|] == '@'
    ensures '@' !in package ==> r == package
  {
    if '@' in package then BeforeFirst(package, '@') else package
  }

  /** What the normalizer emits for one input entry: nothing for a
      self-reference, otherwise the truncated entry. */
  function Step(package: string): seq<string>
  {
    if IsSelfReference(package) then [] else [Truncate(package)]
  }

  /** The output of `normalize_pypi_packages` for `packages`, entry by entry
      from the front, in the order the loop appends them. */
  function Normalized(packages: seq<string>): seq<string>
  {
    if packages == [] then []
    else Normalized(packages[..|packages| - 1]) + Step(packages[|packages| - 1])
  }

  /** An entry the normalizer leaves exactly as it is. */
  predicate Clean(package: string)
  {
    !IsSelfReference(package) && '@' !in package
  }

  /** The loop of `normalize_pypi_packages`: walk the list, skip self-references, cut at `@`
      and append. */
  method NormalizePypiPackages(packages: seq<string>) returns (result: seq<string>)
    ensures result == Normalized(packages)
    ensures forall i :: 0 <= i < |result| ==> Clean(result[i])
  {
    result := [];
    var i := 0;
    while i < |packages|
      invariant 0 <= i <= |packages|
      invariant result == Normalized(packages[..i])
    {
      var package := packages[i];
      assert packages[..i + 1][..i] == packages[..i];
      if IsSelfReference(package) {
        i := i + 1;
        continue;
      }
      if '@' in package {
        package := BeforeFirst(package, '@');
      }
      result := result + [package];
      i := i + 1;
    }
    assert packages[..i] == packages;
    NormalizedClean(packages);
  }

  /** Normalizing a concatenation normalizes each part in place: the output
      keeps the input's order, entry by entry. */
  lemma {:induction false} NormalizedAppend(a: seq<string>, b: seq<string>)
    ensures Normalized(a + b) == Normalized(a) + Normalized(b)
    decreases |b|
  {
    if b == [] {
      assert a + b == a;
    } else {
      var b' := b[..|b| - 1];
      assert (a + b)[..|a + b| - 1] == a + b';
      NormalizedAppend(a, b');
    }
  }

  /** The front-first reading: the first entry's contribution, then the rest. */
  lemma NormalizedCons(p: string, rest: seq<string>)
    ensures Normalized([p] + rest) == Step(p) + Normalized(rest)
  {
    NormalizedAppend([p], rest);
    assert [p][..0] == [];
  }

  /** A survivor contains neither the plugin's name nor `@`: the filter tests
      the whole entry, and a prefix of an entry free of the name is free of it. */
  lemma TruncateClean(package: string)
    requires !IsSelfReference(package)
    ensures Clean(Truncate(package))
  {
    var r := Truncate(package);
    if IsSelfReference(r) {
      PrefixSubstring(package, |r|, SelfName);
    }
  }

  /** No output entry mentions the plugin or holds an `@`. */
  lemma {:induction false} NormalizedClean(packages: seq<string>)
    ensures forall i :: 0 <= i < |Normalized(packages)| ==> Clean(Normalized(packages)[i])
    decreases |packages|
  {
    if packages != [] {
      var last := packages[|packages| - 1];
      NormalizedClean(packages[..|packages| - 1]);
      if !IsSelfReference(last) {
        TruncateClean(last);
      }
    }
  }

  /** Membership both ways: a string is in the output exactly when it is the
      truncation of some input entry that does not mention the plugin. */
  lemma {:induction false} NormalizedMembers(packages: seq<string>, x: string)
    ensures x in Normalized(packages) <==>
      exists p :: p in packages && !IsSelfReference(p) && Truncate(p) == x
    decreases |packages|
  {
    if packages != [] {
      var init := packages[..|packages| - 1];
      var last := packages[|packages| - 1];
      NormalizedMembers(init, x);
      assert packages == init + [last];
      if x in Normalized(packages) && x !in Normalized(init) {
        assert last in packages && !IsSelfReference(last) && Truncate(last) == x;
      }
      if exists p :: p in packages && !IsSelfReference(p) && Truncate(p) == x {
        var p :| p in packages && !IsSelfReference(p) && Truncate(p) == x;
        if p != last {
          assert p in init;
        }
      }
    }
  }

  /** The output never grows the list, and it is exactly as long as the input
      when, and only when, no input entry mentions the plugin. */
  lemma {:induction false} NormalizedLength(packages: seq<string>)
    ensures |Normalized(packages)| <= |packages|
    ensures |Normalized(packages)| == |packages| <==>
      forall i :: 0 <= i < |packages| ==> !IsSelfReference(packages[i])
    decreases |packages|
  {
    if packages != [] {
      var init := packages[..|packages| - 1];
      NormalizedLength(init);
      if forall i :: 0 <= i < |packages| ==> !IsSelfReference(packages[i]) {
        assert forall i :: 0 <= i < |init| ==> init[i] == packages[i];
      } else {
        var i :| 0 <= i < |packages| && IsSelfReference(packages[i]);
        if i < |init| {
          assert init[i] == packages[i];
        }
        assert |Normalized(packages)| < |packages|;
      }
    }
  }

  /** A list of clean entries comes through unchanged. */
  lemma {:induction false} NormalizedFixesClean(packages: seq<string>)
    requires forall i :: 0 <= i < |packages| ==> Clean(packages[i])
    ensures Normalized(packages) == packages
    decreases |packages|
  {
    if packages != [] {
      var init := packages[..|packages| - 1];
      assert forall i :: 0 <= i < |init| ==> init[i] == packages[i];
      NormalizedFixesClean(init);
    }
  }

  /** Normalizing twice is normalizing once. */
  lemma NormalizedIdempotent(packages: seq<string>)
    ensures Normalized(Normalized(packages)) == Normalized(packages)
  {
    NormalizedClean(packages);
    NormalizedFixesClean(Normalized(packages));
  }
}
