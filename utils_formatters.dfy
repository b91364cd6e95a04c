/**
 * `utils/formatters.ts`: formatting by a single unanchored, non-global
 * `replace`. Nothing is stripped first: the leftmost run of the pattern's
 * digit count is grouped and everything around it is kept as it was.
 */
module UtilsFormatters {
  import opened Wrappers
  import opened Text
  import opened LibFormatters

  /** `n` consecutive digits start at `i`. */
  predicate RunAt(s: string, i: nat, n: nat)
  {
    i + n <= |s| && AllDigits(s[i..i + n])
  }

  /** The leftmost position from `from` on where `n` consecutive digits start: where the regex matches. */
  function FirstRun(s: string, n: nat, from: nat): (r: Option<nat>)
    requires from <= |s|
    ensures r.Some? ==> from <= r.value && RunAt(s, r.value, n)
    ensures r.Some? ==> forall j :: from <= j < r.value ==> !RunAt(s, j, n)
    ensures r.None? ==> forall j :: from <= j <= |s| ==> !RunAt(s, j, n)
    decreases |s| - from
  {
    if RunAt(s, from, n) then Some(from)
    else if from == |s| then None
    else FirstRun(s, n, from + 1)
  }

  /** `s.replace(regex, group)` for a regex of `n` digit classes. */
  function ReplaceFirstRun(s: string, n: nat, group: string -> string): (r: string)
  {
    var i := FirstRun(s, n, 0);
    if i.None? then s else s[..i.value] + group(s[i.value..i.value + n]) + s[i.value + n..]
  }

  function GrupoCep(d: string): (r: string)
    requires |d| == 8
    ensures |r| == 9 && r[5] == '-'
  {
    d[..5] + "-" + d[5..]
  }

  /** `formatarCPF`. */
  function FormatarCpf(cpf: string): (r: string)
    ensures r == cpf <==> FirstRun(cpf, 11, 0).None?
    ensures |r| == |cpf| + if FirstRun(cpf, 11, 0).Some? then 3 else 0
  {
    ReplaceFirstRun(cpf, 11, d => if |d| == 11 then GrupoCpf(d) else d)
  }

  /** `formatarTelefone`. */
  function FormatarTelefone(telefone: string): (r: string)
    ensures r == telefone <==> FirstRun(telefone, 11, 0).None?
    ensures |r| == |telefone| + if FirstRun(telefone, 11, 0).Some? then 4 else 0
  {
    ReplaceFirstRun(telefone, 11, d => if |d| == 11 then GrupoCelular(d) else d)
  }

  /** `formatarCEP`. */
  function FormatarCep(cep: string): (r: string)
    ensures r == cep <==> FirstRun(cep, 8, 0).None?
    ensures |r| == |cep| + if FirstRun(cep, 8, 0).Some? then 1 else 0
  {
    ReplaceFirstRun(cep, 8, d => if |d| == 8 then GrupoCep(d) else d)
  }

  /** Without a run of eleven digits, `formatarCPF` returns its input; so does `formatarTelefone`. */
  lemma SemSequenciaInalterado(s: string)
    requires forall j :: 0 <= j <= |s| ==> !RunAt(s, j, 11)
    ensures FormatarCpf(s) == s && FormatarTelefone(s) == s
  {
  }

  /** A ten-digit phone, which has no run of eleven, is returned unchanged. */
  lemma TelefoneFixoInalterado(s: string)
    requires |s| == 10
    ensures FormatarTelefone(s) == s
  {
  }

  /** The leftmost eleven-digit run is grouped; what precedes and follows stays as it was. */
  lemma CpfPrimeiraSequencia(s: string, i: nat)
    requires RunAt(s, i, 11) && forall j :: 0 <= j < i ==> !RunAt(s, j, 11)
    ensures FormatarCpf(s) == s[..i] + GrupoCpf(s[i..i + 11]) + s[i + 11..]
  {
    var k := FirstRun(s, 11, 0);
    assert k == Some(i);
  }

  /** A longer run has only its first eleven digits grouped. */
  lemma CpfSequenciaLonga(s: string)
    requires |s| > 11 && AllDigits(s)
    ensures FormatarCpf(s) == GrupoCpf(s[..11]) + s[11..]
  {
    assert s[0..11] == s[..11];
    assert RunAt(s, 0, 11);
  }

  /** The digits are unchanged by the three formatters: only punctuation is inserted. */
  lemma FormatarCpfDigitsIguais(s: string)
    ensures Digits(FormatarCpf(s)) == Digits(s)
  {
    var i := FirstRun(s, 11, 0);
    if i.Some? {
      var k := i.value;
      DigitsOfGrupoCpf(s[k..k + 11]);
      DigitsOfDigits(s[k..k + 11]);
      DigitsAround(s, k, 11, GrupoCpf(s[k..k + 11]));
    }
  }

  lemma FormatarTelefoneDigitsIguais(s: string)
    ensures Digits(FormatarTelefone(s)) == Digits(s)
  {
    var i := FirstRun(s, 11, 0);
    if i.Some? {
      var k := i.value;
      DigitsOfGrupoCelular(s[k..k + 11]);
      DigitsOfDigits(s[k..k + 11]);
      DigitsAround(s, k, 11, GrupoCelular(s[k..k + 11]));
    }
  }

  lemma FormatarCepDigitsIguais(s: string)
    ensures Digits(FormatarCep(s)) == Digits(s)
  {
    var i := FirstRun(s, 8, 0);
    if i.Some? {
      var k := i.value;
      var d := s[k..k + 8];
      var a, b := d[..5], d[5..];
      assert forall j :: 0 <= j < |b| ==> b[j] == d[5 + j];
      DigitsOfDigits(a);
      DigitsOfDigits(b);
      DigitsSkip(a, "-", b);
      assert a + b == d;
      DigitsOfDigits(d);
      DigitsAround(s, k, 8, GrupoCep(d));
    }
  }

  /** Replacing a run by a string with the same digits keeps the digits of the whole. */
  lemma DigitsAround(s: string, i: nat, n: nat, g: string)
    requires i + n <= |s| && Digits(g) == Digits(s[i..i + n])
    ensures Digits(s[..i] + g + s[i + n..]) == Digits(s)
  {
    DigitsConcat(s[..i] + g, s[i + n..]);
    DigitsConcat(s[..i], g);
    DigitsConcat(s[..i] + s[i..i + n], s[i + n..]);
    DigitsConcat(s[..i], s[i..i + n]);
    assert s[..i] + s[i..i + n] + s[i + n..] == s;
  }
}
