/**
 * The status badge (components/status-badge/StatusBadge.tsx): the label and
 * classes of a status, and the options of its menu.
 *
 * `statusMap` is a list of entries in `Object.entries` order, one per key.
 */
module StatusBadge {
  import opened Wrappers

  /** `StatusConfig`; `rotulo` is its `label`. */
  datatype StatusConfig = StatusConfig(rotulo: string, color: string)

  const COR_PADRAO := "bg-gray-100 text-gray-800 hover:bg-gray-200"

  /** `STATUS_COLORS[color]`. */
  function Cor(color: string): Option<string>
  {
    if color == "success" then Some("bg-green-100 text-green-800 hover:bg-green-200")
    else if color == "danger" then Some("bg-red-100 text-red-800 hover:bg-red-200")
    else if color == "warning" then Some("bg-yellow-100 text-yellow-800 hover:bg-yellow-200")
    else if color == "info" then Some("bg-blue-100 text-blue-800 hover:bg-blue-200")
    else if color == "default" then Some(COR_PADRAO)
    else None
  }

  function Procurar(statusMap: seq<(string, StatusConfig)>, status: string): (r: Option<StatusConfig>)
    ensures r.Some? <==> exists k :: 0 <= k < |statusMap| && statusMap[k].0 == status
    ensures r.Some? ==> exists k :: 0 <= k < |statusMap| && statusMap[k] == (status, r.value)
  {
    if statusMap == [] then None
    else if statusMap[0].0 == status then Some(statusMap[0].1)
    else
      var r := Procurar(statusMap[1..], status);
      assert forall k :: 1 <= k < |statusMap| ==> statusMap[k] == statusMap[1..][k - 1];
      r
  }

  /** `statusMap[status] || { label: status, color: 'default' }`. */
  function Configuracao(statusMap: seq<(string, StatusConfig)>, status: string): (r: StatusConfig)
    ensures Procurar(statusMap, status).Some? ==> r == Procurar(statusMap, status).value
    ensures Procurar(statusMap, status).None? ==> r == StatusConfig(status, "default")
  {
    var c := Procurar(statusMap, status);
    if c.Some? then c.value else StatusConfig(status, "default")
  }

  /** `STATUS_COLORS[statusConfig.color] || STATUS_COLORS.default`. */
  function Classes(config: StatusConfig): (r: string)
    ensures Cor(config.color).Some? ==> r == Cor(config.color).value
    ensures Cor(config.color).None? ==> r == COR_PADRAO
  {
    var c := Cor(config.color);
    if c.Some? then c.value else COR_PADRAO
  }

  /** A menu item: its key, its label and its `className`, where a missing color prints "undefined". */
  datatype Opcao = Opcao(chave: string, rotulo: string, className: string)

  datatype Badge = Simples(rotulo: string, classes: string) | Menu(rotulo: string, classes: string, opcoes: seq<Opcao>)

  function ClasseDoItem(config: StatusConfig): string
  {
    "cursor-pointer " + (var c := Cor(config.color); if c.Some? then c.value else "undefined")
  }

  function Opcoes(statusMap: seq<(string, StatusConfig)>): (r: seq<Opcao>)
    ensures |r| == |statusMap|
    ensures forall k :: 0 <= k < |r| ==> r[k] == Opcao(statusMap[k].0, statusMap[k].1.rotulo, ClasseDoItem(statusMap[k].1))
  {
    seq(|statusMap|, k requires 0 <= k < |statusMap| => Opcao(statusMap[k].0, statusMap[k].1.rotulo, ClasseDoItem(statusMap[k].1)))
  }

  /** `StatusBadge`: a plain badge without `onStatusChange`, a menu with one option per entry otherwise. */
  function Renderizar(status: string, statusMap: seq<(string, StatusConfig)>, comOnStatusChange: bool): (r: Badge)
    ensures r.rotulo == Configuracao(statusMap, status).rotulo && r.classes == Classes(Configuracao(statusMap, status))
    ensures r.Simples? <==> !comOnStatusChange
    ensures r.Menu? ==> r.opcoes == Opcoes(statusMap)
  {
    var config := Configuracao(statusMap, status);
    if !comOnStatusChange then Simples(config.rotulo, Classes(config))
    else Menu(config.rotulo, Classes(config), Opcoes(statusMap))
  }

  /** Clicking option `k` passes its key to `onStatusChange`. */
  function Escolher(b: Badge, k: nat): (r: string)
    requires b.Menu? && k < |b.opcoes|
  {
    b.opcoes[k].chave
  }

  /** Every key of the map is offered, and choosing it hands back that key, which the badge then looks up. */
  lemma EscolhaDevolveAChave(status: string, statusMap: seq<(string, StatusConfig)>, k: nat)
    requires k < |statusMap|
    requires forall i, j :: 0 <= i < j < |statusMap| ==> statusMap[i].0 != statusMap[j].0
    ensures var b := Renderizar(status, statusMap, true);
            Escolher(b, k) == statusMap[k].0 && Configuracao(statusMap, Escolher(b, k)) == statusMap[k].1
  {
    ProcurarChaveUnica(statusMap, k);
  }

  lemma {:induction false} ProcurarChaveUnica(statusMap: seq<(string, StatusConfig)>, k: nat)
    requires k < |statusMap|
    requires forall i, j :: 0 <= i < j < |statusMap| ==> statusMap[i].0 != statusMap[j].0
    ensures Procurar(statusMap, statusMap[k].0) == Some(statusMap[k].1)
  {
    if k > 0 {
      assert statusMap[0].0 != statusMap[k].0;
      assert statusMap[1..][k - 1] == statusMap[k];
      ProcurarChaveUnica(statusMap[1..], k - 1);
    }
  }

  /** An unknown status shows itself with the default classes. */
  lemma StatusDesconhecido(status: string, statusMap: seq<(string, StatusConfig)>, comOnStatusChange: bool)
    requires forall k :: 0 <= k < |statusMap| ==> statusMap[k].0 != status
    ensures Renderizar(status, statusMap, comOnStatusChange).rotulo == status
    ensures Renderizar(status, statusMap, comOnStatusChange).classes == COR_PADRAO
  {
  }

  /** An unknown color falls back to the default classes on the badge, but prints "undefined" on its menu item. */
  lemma CorDesconhecida(rotulo: string)
    ensures Classes(StatusConfig(rotulo, "roxo")) == COR_PADRAO
    ensures ClasseDoItem(StatusConfig(rotulo, "roxo")) == "cursor-pointer undefined"
  {
  }
}
