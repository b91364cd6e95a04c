/**
 * The admin form that registers a client
 * (app/admin/dashboard/clientes/cadastrar/components/CadastrarClienteForm.tsx):
 * its schema, the birth-date mask, the CPF and phone input guards, and the
 * submit handler that builds the request body.
 *
 * zod's `.email()` is the parameter `isEmail`. zod measures strings in UTF-16
 * code units; here a string is measured in characters.
 */
module ClienteForm {
  import opened Wrappers
  import opened Text
  import opened FormState

  const STATUS_CLIENTE: seq<string> := ["ATIVO", "INATIVO", "BLOQUEADO"]

  /** What the form holds; a `status` never chosen is absent. */
  datatype Campos = Campos(nome: string, email: string, cpf: string, telefone: string, endereco: string,
                           dataNascimento: string, status: Option<string>)

  /** What the schema hands to `onSubmit`. */
  datatype Dados = Dados(nome: string, email: string, cpf: string, telefone: string, endereco: string,
                         dataNascimento: string, status: string)

  /** A rejected field with its message; `None` where zod's own message is used. */
  datatype Problema = Problema(campo: string, mensagem: Option<string>)

  /** The field order of `formSchema`, in which zod reports problems. */
  function Problemas(c: Campos, isEmail: string -> bool): (r: seq<Problema>)
    ensures r == [] <==>
              |c.nome| >= 3 && isEmail(c.email) && |c.cpf| == 11 && 10 <= |c.telefone| <= 11 && |c.endereco| >= 5
              && (c.status.None? || c.status.value in STATUS_CLIENTE)
  {
    (if |c.nome| < 3 then [Problema("nome", Some("O nome deve ter pelo menos 3 caracteres"))] else [])
    + (if !isEmail(c.email) then [Problema("email", Some("Email inválido"))] else [])
    + (if |c.cpf| < 11 || |c.cpf| > 11 then [Problema("cpf", Some("CPF deve conter 11 dígitos"))] else [])
    + (if |c.telefone| < 10 then [Problema("telefone", Some("Telefone deve conter no mínimo 10 dígitos"))] else [])
    + (if |c.telefone| > 11 then [Problema("telefone", Some("Telefone deve conter no máximo 11 dígitos"))] else [])
    + (if |c.endereco| < 5 then [Problema("endereco", Some("O endereço deve ter pelo menos 5 caracteres"))] else [])
    + (if c.status.Some? && c.status.value !in STATUS_CLIENTE then [Problema("status", None)] else [])
  }

  /** `formSchema.parse`: the data, with status 'ATIVO' by default, or every problem found. */
  function Validar(c: Campos, isEmail: string -> bool): (r: Result<Dados, seq<Problema>>)
    ensures r.Ok? <==> Problemas(c, isEmail) == []
    ensures r.Err? ==> r.error == Problemas(c, isEmail) && r.error != []
    ensures r.Ok? ==> r.value.status in STATUS_CLIENTE && (c.status.None? ==> r.value.status == "ATIVO")
    ensures r.Ok? ==> r.value.nome == c.nome && r.value.cpf == c.cpf && r.value.telefone == c.telefone
                      && r.value.email == c.email && r.value.endereco == c.endereco && r.value.dataNascimento == c.dataNascimento
  {
    var ps := Problemas(c, isEmail);
    if ps != [] then Err(ps)
    else Ok(Dados(c.nome, c.email, c.cpf, c.telefone, c.endereco, c.dataNascimento,
                  if c.status.Some? then c.status.value else "ATIVO"))
  }

  /** The `defaultValues` fail the schema: the empty nome, cpf, telefone and endereco are all too short. */
  lemma PadraoInvalido(isEmail: string -> bool)
    ensures var r := Validar(Campos("", "", "", "", "", "", Some("ATIVO")), isEmail);
            r.Err? && Problema("nome", Some("O nome deve ter pelo menos 3 caracteres")) in r.error
            && Problema("cpf", Some("CPF deve conter 11 dígitos")) in r.error
  {
    var ps := Problemas(Campos("", "", "", "", "", "", Some("ATIVO")), isEmail);
    assert ps[0] == Problema("nome", Some("O nome deve ter pelo menos 3 caracteres"));
  }

  // The birth-date mask.

  /** The digits the mask keeps: the first eight. */
  function DigitosDaData(entrada: string): (r: string)
    ensures AllDigits(r) && |r| <= 8
  {
    var d := Digits(entrada);
    if |d| > 8 then d[..8] else d
  }

  /** The mask's reference: DD, DD/MM or DD/MM/AAAA as far as the digits go. */
  function Mascara(entrada: string): (r: string)
    ensures |r| <= 10
  {
    var d := DigitosDaData(entrada);
    if |d| <= 2 then d
    else if |d| <= 4 then d[..2] + "/" + d[2..]
    else d[..2] + "/" + d[2..4] + "/" + d[4..]
  }

  /** The `onChange` of the birth-date input, building `formattedDate` step by step. */
  method AplicarMascara(entrada: string) returns (formattedDate: string)
    ensures formattedDate == Mascara(entrada)
  {
    var value := Digits(entrada);
    if |value| > 8 {
      value := value[..8];
    }
    formattedDate := value;
    if |value| >= 2 {
      formattedDate := value[..2];
      if |value| > 2 {
        formattedDate := formattedDate + "/" + value[2..Min(4, |value|)];
        if |value| > 4 {
          formattedDate := formattedDate + "/" + value[4..];
        }
      }
    }
  }

  /** `slice` clamps its end to the length of the string. */
  function Min(a: int, b: int): int { if a <= b then a else b }

  /** Removing the slashes from the mask gives back the digits it kept. */
  lemma MascaraGuardaDigitos(entrada: string)
    ensures Digits(Mascara(entrada)) == DigitosDaData(entrada)
  {
    var d := DigitosDaData(entrada);
    DigitsOfPunctuation("/");
    if |d| <= 2 {
      DigitsOfDigits(d);
    } else if |d| <= 4 {
      assert d == d[..2] + d[2..];
      DigitsOfDigits(d[..2]);
      DigitsOfDigits(d[2..]);
      DigitsConcat(d[..2] + "/", d[2..]);
      DigitsConcat(d[..2], "/");
    } else {
      assert d == d[..2] + d[2..4] + d[4..];
      DigitsOfDigits(d[..2]);
      DigitsOfDigits(d[2..4]);
      DigitsOfDigits(d[4..]);
      DigitsConcat(d[..2] + "/" + d[2..4] + "/", d[4..]);
      DigitsConcat(d[..2] + "/" + d[2..4], "/");
      DigitsConcat(d[..2] + "/", d[2..4]);
      DigitsConcat(d[..2], "/");
    }
  }

  /** Masking a masked date changes nothing. */
  lemma MascaraIdempotente(entrada: string)
    ensures Mascara(Mascara(entrada)) == Mascara(entrada)
  {
    MascaraGuardaDigitos(entrada);
    assert DigitosDaData(Mascara(entrada)) == DigitosDaData(entrada);
  }

  /** Eight digits give DD/MM/AAAA with the slashes at positions 2 and 5. */
  lemma MascaraCompleta(entrada: string)
    requires |DigitosDaData(entrada)| == 8
    ensures var r := Mascara(entrada); var d := DigitosDaData(entrada);
            |r| == 10 && r[2] == '/' && r[5] == '/' && r[..2] == d[..2] && r[3..5] == d[2..4] && r[6..] == d[4..]
  {
  }

  lemma MascaraExemplo()
    ensures Mascara("01022025") == "01/02/2025"
  {
    DigitsOfDigits("01022025");
  }

  // The date conversion of `onSubmit`.

  /**
   * `const [day, month, year] = s.split("/")` and the template: with fewer than
   * two parts `month` is undefined and `month.padStart` throws (`None`); a
   * missing year is printed as "undefined".
   */
  function ConverterData(s: string): (r: Option<string>)
    ensures r.None? <==> |Split(s, '/')| < 2
  {
    var partes := Split(s, '/');
    if |partes| < 2 then None
    else
      var year := if |partes| >= 3 then partes[2] else "undefined";
      Some(year + "-" + PadStart(partes[1], 2, '0') + "-" + PadStart(partes[0], 2, '0'))
  }

  /** DD/MM/YYYY becomes YYYY-MM-DD, day and month padded to two digits. */
  lemma ConverterDataPartes(day: string, month: string, year: string)
    requires '/' !in day && '/' !in month && '/' !in year
    ensures ConverterData(day + "/" + month + "/" + year) ==
            Some(year + "-" + PadStart(month, 2, '0') + "-" + PadStart(day, 2, '0'))
  {
    SplitJoin([day, month, year], '/');
    assert [day, month, year][1..] == [month, year];
    assert [month, year][1..] == [year];
    assert Join([year], "/") == year;
    assert Join([month, year], "/") == month + "/" + year;
    assert Join([day, month, year], ['/']) == day + "/" + month + "/" + year;
    assert Split(day + "/" + month + "/" + year, '/') == [day, month, year];
  }

  lemma ConverterExemplo()
    ensures ConverterData("1/2/2025") == Some("2025-02-01")
  {
    ConverterDataPartes("1", "2", "2025");
    assert "1" + "/" + "2" + "/" + "2025" == "1/2/2025";
    assert PadStart("2", 2, '0') == seq(1, _ => '0') + "2";
    assert seq(1, _ => '0') == "0";
    assert PadStart("1", 2, '0') == "01" && PadStart("2", 2, '0') == "02";
    assert "2025" + "-" + "02" + "-" + "01" == "2025-02-01";
  }

  /** A complete mask converts to the ISO date of its digits. */
  lemma MascaraEConversao(entrada: string)
    requires |DigitosDaData(entrada)| == 8
    ensures var d := DigitosDaData(entrada);
            ConverterData(Mascara(entrada)) == Some(d[4..] + "-" + d[2..4] + "-" + d[..2])
  {
    var d := DigitosDaData(entrada);
    assert forall k :: 0 <= k < |d| ==> d[k] != '/';
    assert '/' !in d[..2] && '/' !in d[2..4] && '/' !in d[4..];
    ConverterDataPartes(d[..2], d[2..4], d[4..]);
  }

  /** The default empty date has no slash, so submitting it throws before the request. */
  lemma DataVaziaLanca()
    ensures ConverterData("").None?
  {
  }

  // The CPF and phone inputs.

  /**
   * `s.replace(/\\D/g, "")`: the regex matches a backslash followed by 'D',
   * and only that pair is removed.
   */
  function RemoverBarraD(s: string): (r: string)
    ensures |r| <= |s|
  {
    if |s| >= 2 && s[0] == '\\' && s[1] == 'D' then RemoverBarraD(s[2..])
    else if s == [] then []
    else [s[0]] + RemoverBarraD(s[1..])
  }

  /** Without a backslash the replace changes nothing: punctuation stays. */
  lemma {:induction false} SemBarraInalterado(s: string)
    requires '\\' !in s
    ensures RemoverBarraD(s) == s
  {
    if s != [] {
      assert '\\' !in s[1..];
      SemBarraInalterado(s[1..]);
      assert s == [s[0]] + s[1..];
    }
  }

  /** The `onChange` of the CPF and phone inputs: the new value, or `None` when the input is refused. */
  function AoDigitar(entrada: string): (r: Option<string>)
    ensures r.Some? ==> |r.value| <= 11
    ensures '\\' !in entrada ==> (r.Some? <==> |entrada| <= 11) && (r.Some? ==> r.value == entrada)
  {
    var value := RemoverBarraD(entrada);
    var r := if |value| <= 11 then Some(value) else None;
    if '\\' !in entrada then SemBarraInalterado(entrada); r else r
  }

  /** A CPF typed with its punctuation is refused outright, not cleaned. */
  lemma CpfFormatadoRecusado()
    ensures AoDigitar("123.456.789-09").None?
  {
    assert '\\' !in "123.456.789-09";
  }

  // The submit handler.

  /** The request body: `ClienteDTO` of services/clientes.ts. */
  datatype ClienteDto = ClienteDto(nome: string, email: string, senha: string, cpf: string, telefone: string,
                                   endereco: string, dataNascimento: string, status: string)

  /** The body `onSubmit` builds, or `None` when the date conversion throws. */
  function Corpo(d: Dados): (r: Option<ClienteDto>)
    ensures r.Some? <==> ConverterData(d.dataNascimento).Some?
    ensures r.Some? ==> r.value.senha == r.value.cpf
    ensures r.Some? ==> r.value.cpf == RemoverBarraD(d.cpf) && r.value.telefone == RemoverBarraD(d.telefone)
                        && r.value.dataNascimento == ConverterData(d.dataNascimento).value
                        && r.value.nome == d.nome && r.value.email == d.email && r.value.endereco == d.endereco
                        && r.value.status == d.status
  {
    var data := ConverterData(d.dataNascimento);
    if data.None? then None
    else
      var cpfLimpo := RemoverBarraD(d.cpf);
      Some(ClienteDto(d.nome, d.email, cpfLimpo, cpfLimpo, RemoverBarraD(d.telefone), d.endereco, data.value, d.status))
  }

  const MSG_SUCESSO := "Cliente cadastrado com sucesso!"
  const MSG_ERRO := "Erro ao cadastrar cliente"
  const ROTA_LISTA := "/admin/dashboard/clientes"

  /**
   * `onSubmit`, given what `ClientesService.cadastrar` would answer to the
   * body: `Ok` or the server's message, if any. Returns the body sent.
   */
  method OnSubmit(estado: EstadoEnvio, d: Dados, resposta: Result<(), Option<string>>) returns (enviado: Option<ClienteDto>)
    modifies estado
    ensures !estado.loading
    ensures enviado == Corpo(d)
    ensures enviado.None? ==> estado.toasts == old(estado.toasts) + [ToastErro(MSG_ERRO)] && estado.rota == old(estado.rota)
    ensures enviado.Some? && resposta.Ok? ==>
              estado.toasts == old(estado.toasts) + [ToastSucesso(MSG_SUCESSO)] && estado.rota == Some(ROTA_LISTA)
    ensures enviado.Some? && resposta.Err? ==>
              estado.toasts == old(estado.toasts) + [ToastErro(MensagemOu(resposta.error, MSG_ERRO))] && estado.rota == old(estado.rota)
  {
    estado.Iniciar();
    enviado := Corpo(d);
    if enviado.None? {
      estado.Avisar(ToastErro(MSG_ERRO));
    } else if resposta.Ok? {
      estado.Avisar(ToastSucesso(MSG_SUCESSO));
      estado.Navegar(ROTA_LISTA);
    } else {
      estado.Avisar(ToastErro(MensagemOu(resposta.error, MSG_ERRO)));
    }
    estado.Concluir();
  }
}
