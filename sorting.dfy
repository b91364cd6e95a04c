/**
 * `Array.prototype.sort` with a comparator of the form
 * `(a, b) => chave(a) - chave(b)`, which orders by ascending `chave`: the
 * array is reordered in place.
 */
module Sorting {
  ghost predicate OrdenadoPor<T>(s: seq<T>, chave: T -> int)
  {
    forall p, q :: 0 <= p < q < |s| ==> chave(s[p]) <= chave(s[q])
  }

  /** Sorts `a` in place by ascending `chave`, keeping its elements. */
  method OrdenarPor<T>(a: array<T>, chave: T -> int)
    modifies a
    ensures OrdenadoPor(a[..], chave)
    ensures multiset(a[..]) == multiset(old(a[..]))
  {
    var i := 0;
    while i < a.Length
      invariant 0 <= i <= a.Length
      invariant OrdenadoPor(a[..i], chave)
      invariant multiset(a[..]) == multiset(old(a[..]))
    {
      Inserir(a, i, chave);
      i := i + 1;
    }
    assert a[..a.Length] == a[..];
  }

  /** Moves `a[i]` left past every larger key, so that `a[..i + 1]` is ordered. */
  method Inserir<T>(a: array<T>, i: nat, chave: T -> int)
    requires i < a.Length
    requires OrdenadoPor(a[..i], chave)
    modifies a
    ensures OrdenadoPor(a[..i + 1], chave)
    ensures multiset(a[..]) == multiset(old(a[..]))
  {
    var j := i;
    Abrir(a[..], i, chave);
    while j > 0 && chave(a[j - 1]) > chave(a[j])
      invariant 0 <= j <= i
      invariant Buraco(a[..], i, j, chave)
      invariant multiset(a[..]) == multiset(old(a[..]))
    {
      Trocar(a[..], i, j, chave);
      a[j - 1], a[j] := a[j], a[j - 1];
      j := j - 1;
    }
    Fechar(a[..], i, j, chave);
  }

  /**
   * While `a[i]` moves left it sits at `j`: the other elements up to `i` are
   * ordered, and it is no larger than those after it.
   */
  ghost predicate Buraco<T>(s: seq<T>, i: nat, j: nat, chave: T -> int)
  {
    j <= i < |s|
    && (forall p, q :: 0 <= p < q <= i && p != j && q != j ==> chave(s[p]) <= chave(s[q]))
    && (forall q :: j < q <= i ==> chave(s[j]) <= chave(s[q]))
  }

  lemma Abrir<T>(s: seq<T>, i: nat, chave: T -> int)
    requires i < |s| && OrdenadoPor(s[..i], chave)
    ensures Buraco(s, i, i, chave)
  {
    forall p, q | 0 <= p < q <= i && p != i && q != i ensures chave(s[p]) <= chave(s[q]) {
      assert s[..i][p] == s[p] && s[..i][q] == s[q];
    }
  }

  lemma Trocar<T>(s: seq<T>, i: nat, j: nat, chave: T -> int)
    requires Buraco(s, i, j, chave) && 0 < j && chave(s[j - 1]) > chave(s[j])
    ensures Buraco(s[j - 1 := s[j]][j := s[j - 1]], i, j - 1, chave)
    ensures multiset(s[j - 1 := s[j]][j := s[j - 1]]) == multiset(s)
  {
  }

  lemma Fechar<T>(s: seq<T>, i: nat, j: nat, chave: T -> int)
    requires Buraco(s, i, j, chave) && (j == 0 || chave(s[j - 1]) <= chave(s[j]))
    ensures OrdenadoPor(s[..i + 1], chave)
  {
    var t := s[..i + 1];
    forall p, q | 0 <= p < q < |t| ensures chave(t[p]) <= chave(t[q]) {
      assert t[p] == s[p] && t[q] == s[q];
      if q == j && p < j - 1 {
        assert chave(s[p]) <= chave(s[j - 1]);
      }
    }
  }

  /** In an ordered sequence every element of a prefix has a key no larger than any element after it. */
  lemma PrefixoTemMenoresChaves<T>(s: seq<T>, chave: T -> int, k: nat)
    requires OrdenadoPor(s, chave) && k <= |s|
    ensures forall x, y :: x in s[..k] && y in s[k..] ==> chave(x) <= chave(y)
  {
    forall x, y | x in s[..k] && y in s[k..] ensures chave(x) <= chave(y) {
      var p :| 0 <= p < k && s[..k][p] == x;
      var q :| 0 <= q < |s| - k && s[k..][q] == y;
      assert s[p] == x && s[k + q] == y;
    }
  }
}
