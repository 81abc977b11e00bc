/**
 * The relevance classifier `is_kubernetes_question`: the text is relevant
 * when one of a fixed list of lower-case keywords occurs in it as a whole
 * word, ignoring case. Each keyword is tried with `re.search` on the pattern
 * `\b<keyword>\b` under `re.IGNORECASE`, and the first hit answers true.
 */
module Classifier {
  import opened Wrappers
  import opened Text

  // The keyword table, one constant per line of the source's list.
  const CoreWords: seq<string> := ["kubernetes", "k8s", "kubectl", "pod", "deployment", "service"]
  const LayoutWords: seq<string> := ["namespace", "ingress", "cluster", "node", "container"]
  const StorageWords: seq<string> := ["configmap", "secret", "volume", "pv", "pvc", "storageclass"]
  const WorkloadWords: seq<string> := ["daemonset", "statefulset", "job", "cronjob", "replicaset"]
  const StateWords: seq<string> := ["crashloopbackoff", "imagepullbackoff", "evicted", "pending"]
  const AccessWords: seq<string> := ["rbac", "serviceaccount", "role", "clusterrole", "helm"]
  const SchedulingWords: seq<string> := ["taint", "toleration", "affinity", "cordon", "drain"]
  const ComponentWords: seq<string> := ["kube-system", "kube-dns", "coredns", "kubelet", "kubeadm"]
  const DistributionWords: seq<string> := ["minikube", "kind", "eks", "aks", "gke", "openshift"]
  const EcosystemWords: seq<string> := ["istio", "knative", "kustomize", "operator", "crd"]

  /** The keywords, in the order the classifier tries them. */
  const Keywords: seq<string> :=
    CoreWords + LayoutWords + StorageWords + WorkloadWords + StateWords
    + AccessWords + SchedulingWords + ComponentWords + DistributionWords + EcosystemWords

  /**
   * The regular-expression assertion `\b` at position `p` of `s`: exactly one
   * of the characters on either side of `p` is a word character (the ends of
   * the text count as non-word).
   */
  predicate BoundaryAt(s: string, p: int)
    requires 0 <= p <= |s|
  {
    (p > 0 && IsWordChar(s[p - 1])) != (p < |s| && IsWordChar(s[p]))
  }

  /** The pattern `\b k \b` matches `s` at offset `i`, ignoring case. */
  predicate HitAt(s: string, k: string, i: int) {
    && 0 <= i && i + |k| <= |s|
    && BoundaryAt(s, i)
    && Lower(s[i..i + |k|]) == k
    && BoundaryAt(s, i + |k|)
  }

  /**
   * `k` occurs in `s` at `i`, ignoring case, with a non-word character or an
   * end of the text on each side: the "whole word" reading of the pattern.
   */
  predicate WholeWordAt(s: string, k: string, i: int) {
    && 0 <= i && i + |k| <= |s|
    && (i == 0 || !IsWordChar(s[i - 1]))
    && Lower(s[i..i + |k|]) == k
    && (i + |k| == |s| || !IsWordChar(s[i + |k|]))
  }

  /** Some pattern of `patterns` matches somewhere in `s`. */
  ghost predicate AnyHit(s: string, patterns: seq<string>) {
    exists k, i :: k in patterns && HitAt(s, k, i)
  }

  /** What the classifier decides: some keyword matches somewhere. */
  ghost predicate Relevant(s: string) {
    AnyHit(s, Keywords)
  }

  /** The leftmost match of `\b k \b` in `s` at or after `from`. */
  function SearchFrom(s: string, k: string, from: nat): (r: Option<nat>)
    ensures r.Some? ==> from <= r.value && HitAt(s, k, r.value)
    ensures r.Some? ==> forall j :: from <= j < r.value ==> !HitAt(s, k, j)
    ensures r.None? ==> forall j :: from <= j ==> !HitAt(s, k, j)
    decreases |s| + 1 - from
  {
    if |s| < from + |k| then None
    else if HitAt(s, k, from) then Some(from)
    else SearchFrom(s, k, from + 1)
  }

  /**
   * `re.search(r'\b' + k + r'\b', s, re.IGNORECASE)` for a keyword `k`: the
   * leftmost match, if any. A keyword is lower case and holds no regular-
   * expression metacharacter, so it matches itself literally and folding the
   * text alone is enough to ignore case.
   */
  function Search(s: string, k: string): (r: Option<nat>)
    requires Shaped(k)
    ensures r.Some? ==> HitAt(s, k, r.value) && forall j :: 0 <= j < r.value ==> !HitAt(s, k, j)
    ensures r.None? <==> forall j :: !HitAt(s, k, j)
  {
    SearchFrom(s, k, 0)
  }

  /** The classifier's loop: tries each keyword in order and answers true on the first hit. */
  method MatchesAny(text: string, patterns: seq<string>) returns (found: bool)
    requires forall k :: k in patterns ==> Shaped(k)
    ensures found <==> AnyHit(text, patterns)
  {
    for n := 0 to |patterns|
      invariant forall j :: 0 <= j < n ==> Search(text, patterns[j]).None?
    {
      var m := Search(text, patterns[n]);
      if m.Some? {
        assert patterns[n] in patterns && HitAt(text, patterns[n], m.value);
        return true;
      }
    }
    forall k, i | k in patterns
      ensures !HitAt(text, k, i)
    {
      var j :| 0 <= j < |patterns| && patterns[j] == k;
      assert Search(text, patterns[j]).None?;
    }
    return false;
  }

  /** `is_kubernetes_question`. */
  method IsKubernetesQuestion(text: string) returns (found: bool)
    ensures found <==> Relevant(text)
  {
    KeywordsShape();
    found := MatchesAny(text, Keywords);
  }

  /** Lower-case letters, digits and `-` only, with a word character at each end. */
  predicate Shaped(k: string) {
    && 2 <= |k| && IsWordChar(k[0]) && IsWordChar(k[|k| - 1])
    && forall j :: 0 <= j < |k| ==> IsLower(k[j]) || ('0' <= k[j] <= '9') || k[j] == '-'
  }

  /** A shaped keyword is its own case folding. */
  lemma ShapedIsFolded(k: string)
    requires Shaped(k)
    ensures Lower(k) == k
  {
  }

  lemma CoreWordsShaped() ensures forall k :: k in CoreWords ==> Shaped(k) {}
  lemma LayoutWordsShaped() ensures forall k :: k in LayoutWords ==> Shaped(k) {}
  lemma StorageWordsShaped() ensures forall k :: k in StorageWords ==> Shaped(k) {}
  lemma WorkloadWordsShaped() ensures forall k :: k in WorkloadWords ==> Shaped(k) {}
  lemma StateWordsShaped() ensures forall k :: k in StateWords ==> Shaped(k) {}
  lemma AccessWordsShaped() ensures forall k :: k in AccessWords ==> Shaped(k) {}
  lemma SchedulingWordsShaped() ensures forall k :: k in SchedulingWords ==> Shaped(k) {}
  lemma ComponentWordsShaped() ensures forall k :: k in ComponentWords ==> Shaped(k) {}
  lemma DistributionWordsShaped() ensures forall k :: k in DistributionWords ==> Shaped(k) {}
  lemma EcosystemWordsShaped() ensures forall k :: k in EcosystemWords ==> Shaped(k) {}

  /**
   * There are 52 keywords; each is lower case, at least two characters long,
   * and has a word character at both ends.
   */
  lemma KeywordsShape()
    ensures |Keywords| == 52
    ensures forall k :: k in Keywords ==> Shaped(k) && Lower(k) == k
  {
    CoreWordsShaped();
    LayoutWordsShaped();
    StorageWordsShaped();
    WorkloadWordsShaped();
    StateWordsShaped();
    AccessWordsShaped();
    SchedulingWordsShaped();
    ComponentWordsShaped();
    DistributionWordsShaped();
    EcosystemWordsShaped();
    forall k | k in Keywords
      ensures Lower(k) == k
    {
      ShapedIsFolded(k);
    }
  }

  /**
   * For a pattern that starts and ends with a word character, `\b k \b`
   * matches exactly where `k` occurs as a whole word.
   */
  lemma BoundaryIsWholeWord(s: string, k: string, i: int)
    requires |k| > 0 && IsWordChar(k[0]) && IsWordChar(k[|k| - 1])
    ensures HitAt(s, k, i) <==> WholeWordAt(s, k, i)
  {
    if 0 <= i && i + |k| <= |s| && Lower(s[i..i + |k|]) == k {
      assert Fold(s[i]) == k[0];
      assert Fold(s[i + |k| - 1]) == k[|k| - 1];
    }
  }

  /** The classifier answers true iff some keyword occurs as a whole word, ignoring case. */
  lemma RelevantIffWholeWord(s: string)
    ensures Relevant(s) <==> exists k, i :: k in Keywords && WholeWordAt(s, k, i)
  {
    KeywordsShape();
    if Relevant(s) {
      var k, i :| k in Keywords && HitAt(s, k, i);
      BoundaryIsWholeWord(s, k, i);
    }
    if exists k, i :: k in Keywords && WholeWordAt(s, k, i) {
      var k, i :| k in Keywords && WholeWordAt(s, k, i);
      BoundaryIsWholeWord(s, k, i);
      assert HitAt(s, k, i);
    }
  }

  /** Texts that agree up to letter case match the same patterns at the same places. */
  lemma HitIgnoresCase(s: string, t: string, k: string, i: int)
    requires Lower(s) == Lower(t)
    ensures HitAt(s, k, i) <==> HitAt(t, k, i)
  {
    assert |s| == |Lower(s)| == |t|;
    forall j | 0 <= j < |s|
      ensures IsWordChar(s[j]) == IsWordChar(t[j])
    {
      assert Fold(s[j]) == Lower(s)[j] == Fold(t[j]);
    }
    if 0 <= i && i + |k| <= |s| {
      LowerSlice(s, i, i + |k|);
      LowerSlice(t, i, i + |k|);
    }
  }

  /** Changing the letter case of the text never changes the classification. */
  lemma CaseInsensitive(s: string, t: string)
    requires Lower(s) == Lower(t)
    ensures Relevant(s) <==> Relevant(t)
  {
    forall k, i | k in Keywords && HitAt(s, k, i)
      ensures HitAt(t, k, i)
    {
      HitIgnoresCase(s, t, k, i);
    }
    forall k, i | k in Keywords && HitAt(t, k, i)
      ensures HitAt(s, k, i)
    {
      HitIgnoresCase(s, t, k, i);
    }
  }

  /** In particular, folding or raising the whole text keeps the answer. */
  lemma LowerUpperSameAnswer(s: string)
    ensures Relevant(Lower(s)) <==> Relevant(s)
    ensures Relevant(Upper(s)) <==> Relevant(s)
  {
    LowerIdempotent(s);
    CaseInsensitive(Lower(s), s);
    CaseInsensitive(Upper(s), s);
  }

  /**
   * A text that is one single word is relevant exactly when, folded, it is a
   * keyword: a keyword inside a longer word ("pods", "podcast") is no match.
   */
  lemma SingleWord(s: string)
    requires s != [] && forall j :: 0 <= j < |s| ==> IsWordChar(s[j])
    ensures Relevant(s) <==> Lower(s) in Keywords
  {
    KeywordsShape();
    if Relevant(s) {
      var k, i :| k in Keywords && HitAt(s, k, i);
      assert forall p :: 0 < p < |s| ==> !BoundaryAt(s, p);
      assert s[i..i + |k|] == s;
    }
    if Lower(s) in Keywords {
      assert s[0..|s|] == s;
      assert HitAt(s, Lower(s), 0);
    }
  }

  /** No keyword fits in a text shorter than two characters; the empty text is not relevant. */
  lemma ShortTextIrrelevant(s: string)
    requires |s| < 2
    ensures !Relevant(s)
  {
    KeywordsShape();
  }

  /** Whether a text is relevant does not depend on the order in which the patterns are tried. */
  lemma OrderIrrelevant(s: string, patterns: seq<string>, reordered: seq<string>)
    requires forall k :: k in patterns <==> k in reordered
    ensures AnyHit(s, patterns) <==> AnyHit(s, reordered)
  {
  }

  /** A word set off by non-word characters (or the ends of the text) is matched by its folded form. */
  lemma HitInContext(before: string, word: string, after: string)
    requires word != [] && IsWordChar(word[0]) && IsWordChar(word[|word| - 1])
    requires before == [] || !IsWordChar(before[|before| - 1])
    requires after == [] || !IsWordChar(after[0])
    ensures HitAt(before + word + after, Lower(word), |before|)
  {
    var s := before + word + after;
    var i := |before|;
    assert s[i..i + |word|] == word;
    assert s[i] == word[0] && s[i + |word| - 1] == word[|word| - 1];
    assert i > 0 ==> s[i - 1] == before[i - 1];
    assert i + |word| < |s| ==> s[i + |word|] == after[0];
  }

  /** A keyword, in any case, set off by non-word characters (or the ends of the text) makes the text relevant. */
  lemma KeywordInContext(before: string, word: string, after: string)
    requires Lower(word) in Keywords
    requires before == [] || !IsWordChar(before[|before| - 1])
    requires after == [] || !IsWordChar(after[0])
    ensures Relevant(before + word + after)
  {
    var k := Lower(word);
    assert Shaped(k) by { KeywordsShape(); }
    assert Fold(word[0]) == k[0] && Fold(word[|word| - 1]) == k[|k| - 1];
    HitInContext(before, word, after);
    assert k in Keywords && HitAt(before + word + after, k, |before|);
  }

  /** Worked example: a keyword set off by spaces counts, in whatever case it is written. */
  lemma PodExample()
    ensures Relevant("my Pod is stuck")
  {
    var text := "my Pod is stuck";
    assert text == "my " + "Pod" + " is stuck";
    PodIsKeyword();
    KeywordInContext("my ", "Pod", " is stuck");
  }

  /** "Pod" folds to the keyword "pod". */
  lemma PodIsKeyword()
    ensures Lower("Pod") in Keywords
  {
    assert Lower("Pod") == "pod" == CoreWords[3];
    InKeywords("pod");
  }

  /** Worked example: a keyword written in capitals counts. */
  lemma CapitalsExample()
    ensures Relevant("KUBECTL")
  {
    SingleWord("KUBECTL");
    assert Lower("KUBECTL") == "kubectl";
  }

  /** Membership in the keyword list, line by line. */
  lemma InKeywords(x: string)
    ensures x in Keywords <==>
      (|| x in CoreWords || x in LayoutWords || x in StorageWords || x in WorkloadWords
       || x in StateWords || x in AccessWords || x in SchedulingWords || x in ComponentWords
       || x in DistributionWords || x in EcosystemWords)
  {
  }

  /** Worked example: a plural of a keyword does not count. */
  lemma PluralIsNoMatch()
    ensures !Relevant("pods")
  {
    assert Lower("pods") !in Keywords by {
      assert Lower("pods") == "pods";
      InKeywords("pods");
    }
    SingleWord("pods");
  }

  /** Worked example: a longer word that starts with a keyword does not count. */
  lemma LongerWordIsNoMatch()
    ensures !Relevant("podcast")
  {
    assert Lower("podcast") !in Keywords by {
      assert Lower("podcast") == "podcast";
      InKeywords("podcast");
    }
    SingleWord("podcast");
  }
}
