/** The user menu of the sidebar (components/nav-user.tsx): `getInitials` and the empty render. */
module NavUser {
  import opened Wrappers
  import opened Text
  import opened Seqs

  /** `word[0]`, where an empty word gives `undefined`, which `join` prints as nothing. */
  function Primeira(word: string): (r: string)
    ensures |r| <= 1 && (word != "" ==> r == [word[0]])
  {
    if word == "" then "" else [word[0]]
  }

  /** `name.split(' ').map(word => word[0]).join('').toUpperCase().slice(0, 2)`. */
  function GetInitials(name: string): (r: string)
    ensures |r| <= 2
    ensures var palavras := |Filter(Split(name, ' '), NaoVazia)|;
            |r| == if palavras < 2 then palavras else 2
  {
    UmaLetraPorPalavra(Split(name, ' '));
    var iniciais := Upper(Join(Map(Split(name, ' '), Primeira), ""));
    SliceNonNegative(iniciais, 0, 2);
    Slice(iniciais, 0, 2)
  }

  function NaoVazia(w: string): bool { w != "" }

  lemma JoinVazioCons(a: string, resto: seq<string>)
    ensures Join([a] + resto, "") == a + Join(resto, "")
  {
    if resto == [] {
      assert [a] + resto == [a];
    } else {
      assert ([a] + resto)[1..] == resto;
    }
  }

  /** Each non-empty word gives one letter to the joined initials, and an empty one none. */
  lemma {:induction false} UmaLetraPorPalavra(words: seq<string>)
    ensures |Join(Map(words, Primeira), "")| == |Filter(words, NaoVazia)|
  {
    if words != [] {
      UmaLetraPorPalavra(words[1..]);
      assert Map(words, Primeira) == [Primeira(words[0])] + Map(words[1..], Primeira);
      JoinVazioCons(Primeira(words[0]), Map(words[1..], Primeira));
    }
  }

  /** Empty words add nothing to the initials. */
  lemma {:induction false} PalavrasVaziasNaoContam(words: seq<string>)
    ensures Join(Map(words, Primeira), "") == Join(Map(Filter(words, NaoVazia), Primeira), "")
  {
    if words != [] {
      PalavrasVaziasNaoContam(words[1..]);
      assert Map(words, Primeira) == [Primeira(words[0])] + Map(words[1..], Primeira);
      JoinVazioCons(Primeira(words[0]), Map(words[1..], Primeira));
      if NaoVazia(words[0]) {
        assert Filter(words, NaoVazia) == [words[0]] + Filter(words[1..], NaoVazia);
        assert Map(Filter(words, NaoVazia), Primeira) == [Primeira(words[0])] + Map(Filter(words[1..], NaoVazia), Primeira);
        JoinVazioCons(Primeira(words[0]), Map(Filter(words[1..], NaoVazia), Primeira));
      }
    }
  }

  /** The initials are the first letters of the first two non-empty words, uppercased. */
  lemma IniciaisDeDuasPalavras(a: string, b: string)
    requires a != "" && b != "" && ' ' !in a && ' ' !in b
    ensures GetInitials(a + " " + b) == [UpperChar(a[0]), UpperChar(b[0])]
  {
    SplitAfterWord(a, b, ' ');
    SplitNoSeparator(b, ' ');
    assert Split(a + " " + b, ' ') == [a, b];
    assert Map([a, b], Primeira) == [[a[0]], [b[0]]];
    assert Join([[a[0]], [b[0]]], "") == [a[0], b[0]];
  }

  lemma MariaSilva()
    ensures GetInitials("Maria Silva") == "MS"
  {
    IniciaisDeDuasPalavras("Maria", "Silva");
    assert "Maria" + " " + "Silva" == "Maria Silva";
  }

  datatype Usuario = Usuario(nome: string, email: string)

  /** What the trigger shows: the initials, the name and the e-mail. */
  datatype Cartao = Cartao(iniciais: string, nome: string, email: string)

  /** `NavUser`: nothing without a user. */
  function Renderizar(user: Option<Usuario>): (r: Option<Cartao>)
    ensures r.None? <==> user.None?
    ensures r.Some? ==> r.value == Cartao(GetInitials(user.value.nome), user.value.nome, user.value.email)
  {
    if user.None? then None else Some(Cartao(GetInitials(user.value.nome), user.value.nome, user.value.email))
  }
}
