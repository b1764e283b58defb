/** Alteration templates: the registered templates named `<template>_alt...`,
    and the chain of `runAll` transforms they drive on an injected carrier. */
module TemplateAlterations {
  import opened StegoTypes

  /** The name prefix that makes a template an alteration of `template`. */
  function AltPrefix(template: string): string
  {
    template + "_alt"
  }

  /** The alterations of `template`: the registry filtered by name prefix,
      in registry order. */
  function Alterations(templates: seq<string>, template: string): (r: seq<string>)
    ensures forall x :: x in r <==> x in templates && StartsWith(x, AltPrefix(template))
    ensures |r| <= |templates|
    decreases |templates|
  {
    if templates == [] then []
    else
      var n := |templates|;
      var last := templates[n - 1];
      assert templates == templates[..n - 1] + [last];
      Alterations(templates[..n - 1], template)
        + (if StartsWith(last, AltPrefix(template)) then [last] else [])
  }

  /** `a` is `b` with some elements dropped, the rest kept in order. */
  predicate IsSubsequence(a: seq<string>, b: seq<string>)
    decreases |b|
  {
    if a == [] then true
    else if b == [] then false
    else if a[|a| - 1] == b[|b| - 1] then IsSubsequence(a[..|a| - 1], b[..|b| - 1])
    else IsSubsequence(a, b[..|b| - 1])
  }

  /** The alterations keep the registry's relative order. */
  lemma {:induction false} AlterationsKeepRegistryOrder(templates: seq<string>, template: string)
    ensures IsSubsequence(Alterations(templates, template), templates)
    decreases |templates|
  {
    if templates != [] {
      var n := |templates|;
      var init, last := templates[..n - 1], templates[n - 1];
      var before := Alterations(init, template);
      AlterationsKeepRegistryOrder(init, template);
      if StartsWith(last, AltPrefix(template)) {
        var r := before + [last];
        assert r[..|r| - 1] == before;
      } else {
        assert Alterations(templates, template) == before;
        if before != [] {
          assert before[|before| - 1] in before;
        }
      }
    }
  }

  /** No matching template is dropped and none is duplicated: each name occurs
      in the alterations exactly as often as in the registry if it matches,
      and not at all otherwise. */
  lemma {:induction false} AlterationsMultiplicity(templates: seq<string>, template: string)
    ensures forall x :: multiset(Alterations(templates, template))[x] ==
                        if StartsWith(x, AltPrefix(template)) then multiset(templates)[x] else 0
    decreases |templates|
  {
    if templates != [] {
      var n := |templates|;
      var init, last := templates[..n - 1], templates[n - 1];
      AlterationsMultiplicity(init, template);
      assert templates == init + [last];
      assert multiset(templates) == multiset(init) + multiset{last};
    }
  }

  /** The carrier after each alteration has been run over it (Python's loop
      rebinding `transformed`). Alterations apply in list order: the first
      acts on the carrier itself, the rest on its output. */
  function ApplyAlterations(runAll: Transformer, carrier: Bytes, alterations: seq<string>): (r: Bytes)
    ensures alterations == [] ==> r == carrier
    ensures alterations != [] ==> r == ApplyAlterations(runAll, runAll(carrier, alterations[0]), alterations[1..])
    decreases |alterations|
  {
    if alterations == [] then carrier
    else
      var n := |alterations|;
      var init := alterations[..n - 1];
      assert init != [] ==> init[1..] == alterations[1..][..n - 2];
      runAll(ApplyAlterations(runAll, carrier, init), alterations[n - 1])
  }

  /** Running two lists of alterations one after the other is running their
      concatenation. */
  lemma {:induction false} ApplyAlterationsAppend(runAll: Transformer, carrier: Bytes, first: seq<string>, second: seq<string>)
    ensures ApplyAlterations(runAll, carrier, first + second)
      == ApplyAlterations(runAll, ApplyAlterations(runAll, carrier, first), second)
    decreases |second|
  {
    if second == [] {
      assert first + second == first;
    } else {
      var n := |second|;
      assert (first + second)[..|first + second| - 1] == first + second[..n - 1];
      ApplyAlterationsAppend(runAll, carrier, first, second[..n - 1]);
    }
  }
}
