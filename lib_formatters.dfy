/**
 * `lib/formatters.ts`: CPF and phone formatting that first strips every
 * non-digit and then applies a regular expression anchored at both ends,
 * so it groups only a digit string of exactly the right length.
 */
module LibFormatters {
  import opened Text

  /** "DDD.DDD.DDD-DD" for an 11-digit string. */
  function GrupoCpf(d: string): (r: string)
    requires |d| == 11
    ensures |r| == 14 && r[3] == '.' && r[7] == '.' && r[11] == '-'
  {
    d[..3] + "." + d[3..6] + "." + d[6..9] + "-" + d[9..]
  }

  /** "(DD) DDDDD-DDDD" for an 11-digit string. */
  function GrupoCelular(d: string): (r: string)
    requires |d| == 11
    ensures |r| == 15 && r[0] == '(' && r[3] == ')' && r[4] == ' ' && r[10] == '-'
  {
    "(" + d[..2] + ") " + d[2..7] + "-" + d[7..]
  }

  /** "(DD) DDDD-DDDD" for a 10-digit string. */
  function GrupoFixo(d: string): (r: string)
    requires |d| == 10
    ensures |r| == 14 && r[0] == '(' && r[3] == ')' && r[4] == ' ' && r[9] == '-'
  {
    "(" + d[..2] + ") " + d[2..6] + "-" + d[6..]
  }

  /** `formatarCPF`. */
  function FormatarCpf(cpf: string): (r: string)
    ensures |Digits(cpf)| == 11 ==> |r| == 14 && r[3] == '.' && r[7] == '.' && r[11] == '-'
    ensures |Digits(cpf)| != 11 ==> r == Digits(cpf)
  {
    var limpo := Digits(cpf);
    if |limpo| == 11 then GrupoCpf(limpo) else limpo
  }

  /** `formatarTelefone`. */
  function FormatarTelefone(telefone: string): (r: string)
    ensures |Digits(telefone)| == 11 ==> |r| == 15 && r[0] == '(' && r[3] == ')' && r[4] == ' ' && r[10] == '-'
    ensures |Digits(telefone)| == 10 ==> |r| == 14 && r[0] == '(' && r[3] == ')' && r[4] == ' ' && r[9] == '-'
    ensures |Digits(telefone)| != 11 && |Digits(telefone)| != 10 ==> r == Digits(telefone)
  {
    var limpo := Digits(telefone);
    if |limpo| == 11 then GrupoCelular(limpo)
    else if |limpo| == 10 then GrupoFixo(limpo)
    else limpo
  }

  /** A separator without digits contributes nothing to the digits of a concatenation. */
  lemma DigitsSkip(x: string, sep: string, y: string)
    requires forall i :: 0 <= i < |sep| ==> !IsDigit(sep[i])
    ensures Digits(x + sep + y) == Digits(x) + Digits(y)
  {
    DigitsOfPunctuation(sep);
    DigitsConcat(x, sep);
    assert Digits(x + sep) == Digits(x);
    DigitsConcat(x + sep, y);
  }

  /** Digits of three digit blocks joined by two separators without digits. */
  lemma DigitsOfBlocks(a: string, s1: string, b: string, s2: string, c: string)
    requires AllDigits(a) && AllDigits(b) && AllDigits(c)
    requires forall i :: 0 <= i < |s1| ==> !IsDigit(s1[i])
    requires forall i :: 0 <= i < |s2| ==> !IsDigit(s2[i])
    ensures Digits(a + s1 + (b + s2 + c)) == a + b + c
  {
    DigitsOfDigits(a);
    DigitsOfDigits(b);
    DigitsOfDigits(c);
    var bc := b + s2 + c;
    DigitsSkip(b, s2, c);
    assert Digits(bc) == b + c;
    DigitsSkip(a, s1, bc);
    assert Digits(a + s1 + bc) == Digits(a) + Digits(bc);
    assert a + (b + c) == a + b + c;
  }

  lemma DigitsOfGrupoCpf(d: string)
    requires |d| == 11 && AllDigits(d)
    ensures Digits(GrupoCpf(d)) == d
  {
    var a, b, c, e := d[..3], d[3..6], d[6..9], d[9..];
    assert forall i :: 0 <= i < |e| ==> e[i] == d[9 + i];
    DigitsOfBlocks(b, ".", c, "-", e);
    DigitsOfDigits(a);
    DigitsSkip(a, ".", b + "." + (c + "-" + e));
    assert GrupoCpf(d) == a + "." + (b + "." + (c + "-" + e));
    assert a + (b + c + e) == d;
  }

  lemma DigitsOfGrupoCelular(d: string)
    requires |d| == 11 && AllDigits(d)
    ensures Digits(GrupoCelular(d)) == d
  {
    var a, b, c := d[..2], d[2..7], d[7..];
    assert forall i :: 0 <= i < |c| ==> c[i] == d[7 + i];
    DigitsOfBlocks(a, ") ", b, "-", c);
    DigitsSkip("", "(", a + ") " + (b + "-" + c));
    assert GrupoCelular(d) == "" + "(" + (a + ") " + (b + "-" + c));
    assert a + b + c == d;
  }

  lemma DigitsOfGrupoFixo(d: string)
    requires |d| == 10 && AllDigits(d)
    ensures Digits(GrupoFixo(d)) == d
  {
    var a, b, c := d[..2], d[2..6], d[6..];
    assert forall i :: 0 <= i < |c| ==> c[i] == d[6 + i];
    DigitsOfBlocks(a, ") ", b, "-", c);
    DigitsSkip("", "(", a + ") " + (b + "-" + c));
    assert GrupoFixo(d) == "" + "(" + (a + ") " + (b + "-" + c));
    assert a + b + c == d;
  }

  /** Stripping the punctuation of `formatarCPF`'s output gives back the stripped input. */
  lemma FormatarCpfDigits(cpf: string)
    ensures Digits(FormatarCpf(cpf)) == Digits(cpf)
  {
    var limpo := Digits(cpf);
    if |limpo| == 11 {
      DigitsOfGrupoCpf(limpo);
    } else {
      DigitsOfDigits(limpo);
    }
  }

  /** Stripping the punctuation of `formatarTelefone`'s output gives back the stripped input. */
  lemma FormatarTelefoneDigits(telefone: string)
    ensures Digits(FormatarTelefone(telefone)) == Digits(telefone)
  {
    var limpo := Digits(telefone);
    if |limpo| == 11 {
      DigitsOfGrupoCelular(limpo);
    } else if |limpo| == 10 {
      DigitsOfGrupoFixo(limpo);
    } else {
      DigitsOfDigits(limpo);
    }
  }

  /** `formatarCPF` is idempotent. */
  lemma FormatarCpfIdempotente(cpf: string)
    ensures FormatarCpf(FormatarCpf(cpf)) == FormatarCpf(cpf)
  {
    FormatarCpfDigits(cpf);
  }

  /** `formatarTelefone` is idempotent. */
  lemma FormatarTelefoneIdempotente(telefone: string)
    ensures FormatarTelefone(FormatarTelefone(telefone)) == FormatarTelefone(telefone)
  {
    FormatarTelefoneDigits(telefone);
  }

  /** The documented example. */
  lemma FormatarCpfExemplo()
    ensures FormatarCpf("12345678901") == "123.456.789-01"
  {
    var d := "12345678901";
    assert AllDigits(d);
    DigitsOfDigits(d);
    GrupoCpfExemplo();
  }

  lemma GrupoCpfExemplo()
    ensures GrupoCpf("12345678901") == "123.456.789-01"
  {
    var d := "12345678901";
    assert d[..3] == "123" && d[3..6] == "456";
    assert d[6..9] == "789";
    assert d[9..] == "01";
  }

  /** With a wrong digit count the digits come back unformatted. */
  lemma FormatarCpfOutroTamanho(cpf: string)
    requires |Digits(cpf)| != 11
    ensures FormatarCpf(cpf) == Digits(cpf)
  {
  }
}
