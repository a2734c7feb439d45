/** The records the validation module inspects: a Projeto owns an ordered
    list of Subprojetos, each of which owns an ordered list of Tarefas.
    They are plain objects whose fields may be missing; a missing field is
    `None`. Dates are kept as the strings the forms supply. */
module Entidades {
  import opened Opcional

  /** The fields of a record that no check reads; an object spread copies
      them through unchanged. */
  type Extra(==, !new)

  datatype Tarefa = Tarefa(
    tarefaId: Option<string>,
    dataInicio: Option<string>,
    dataFimPrevista: Option<string>,
    dataFimReal: Option<string>,
    status: Option<string>,
    observacoes: Option<string>,
    extra: Extra)

  datatype Subprojeto = Subprojeto(
    subprojetoId: Option<string>,
    tarefas: Option<seq<Tarefa>>,
    extra: Extra)

  datatype Projeto = Projeto(
    nome: Option<string>,
    descricao: Option<string>,
    clienteId: Option<string>,
    dataInicio: Option<string>,
    dataFimPrevista: Option<string>,
    subprojetos: Option<seq<Subprojeto>>,
    extra: Extra)

  /** The `{ valido, erros }` object every validator returns. */
  datatype Resultado = Resultado(valido: bool, erros: seq<string>)

  /** JavaScript truthiness of a string field: present and not empty. */
  predicate Presente(campo: Option<string>) {
    campo.Some? && campo.value != ""
  }

  /** `new Date(s)` read as milliseconds since the epoch; `None` stands for
      an Invalid Date, whose NaN makes every comparison false. */
  type LeituraData = string -> Option<int>

  /** Milliseconds in a day, `1000 * 60 * 60 * 24`. */
  const Dia: nat := 86_400_000

  /** `new Date(a) < new Date(b)`. */
  predicate DataMenor(a: string, b: string, ler: LeituraData) {
    ler(a).Some? && ler(b).Some? && ler(a).value < ler(b).value
  }

  /** `new Date(a) <= new Date(b)`. */
  predicate DataMenorOuIgual(a: string, b: string, ler: LeituraData) {
    ler(a).Some? && ler(b).Some? && ler(a).value <= ler(b).value
  }

  /** `Math.ceil(ms / Dia)` for a non-negative number of milliseconds: the
      number of days that covers `ms`. */
  function DiasParaCima(ms: nat): (d: nat)
    ensures d * Dia >= ms
    ensures d == 0 || (d - 1) * Dia < ms
  {
    if ms % Dia == 0 then ms / Dia else ms / Dia + 1
  }

  /** `Math.abs` on a whole number of milliseconds. */
  function Abs(x: int): (r: nat)
    ensures r == x || r == -x
  {
    if x < 0 then -x else x
  }
}
