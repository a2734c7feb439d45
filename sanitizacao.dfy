/** `sanitizarProjeto`: a copy of the project, its sub-projects and their
    tasks in which every field the forms fill in is present. Text fields
    are trimmed, dates are kept as given, a missing status becomes
    `"NAO_INICIADA"` and a missing list becomes empty; every other field
    is copied through by the object spread. */
module Sanitizacao {
  import opened Opcional
  import opened Texto
  import opened Entidades
  import opened Regras

  /** The status a task without one receives. */
  const StatusPadrao: string := "NAO_INICIADA"

  /** `campo?.trim() || ""`: the `|| ""` changes nothing but a missing
      field, so the result is the trimmed value, `""` when missing. */
  function TextoAparado(campo: Option<string>): (r: Option<string>)
    ensures r == Some(Trim(campo.GetOr("")))
  {
    if campo.Some? && Trim(campo.value) != "" then Some(Trim(campo.value)) else Some("")
  }

  /** `campo || ""`: a date is not trimmed. The result is present, truthy
      exactly when the original is, and then equal to it. */
  function OuVazio(campo: Option<string>): (r: Option<string>)
    ensures r.Some?
    ensures Presente(r) <==> Presente(campo)
    ensures Presente(campo) ==> r == campo
  {
    if Presente(campo) then campo else Some("")
  }

  /** `status || "NAO_INICIADA"`: always set, a set status kept, and the
      default a valid status that is not a closed one. */
  function StatusOuPadrao(status: Option<string>): (r: Option<string>)
    ensures Presente(r)
    ensures Presente(status) ==> r == status
    ensures !Presente(status) ==> r.value in StatusValidos && r.value !in StatusEncerrados
  {
    if Presente(status) then status else Some(StatusPadrao)
  }

  /** A sanitized task has every form field present, trimmed text and a
      set status, and keeps every other field. */
  function SanitizarTarefa(t: Tarefa): (r: Tarefa)
    ensures TarefaSaneada(r) && r.extra == t.extra
  {
    t.(tarefaId := TextoAparado(t.tarefaId),
       observacoes := TextoAparado(t.observacoes),
       dataInicio := OuVazio(t.dataInicio),
       dataFimPrevista := OuVazio(t.dataFimPrevista),
       dataFimReal := OuVazio(t.dataFimReal),
       status := StatusOuPadrao(t.status))
  }

  /** A sanitized sub-project has a trimmed identifier and a task list,
      one sanitized task per original task, and keeps every other field. */
  function SanitizarSubprojeto(s: Subprojeto): (r: Subprojeto)
    ensures TextoSaneado(r.subprojetoId) && r.tarefas.Some? && r.extra == s.extra
    ensures |r.tarefas.value| == |s.tarefas.GetOr([])|
  {
    s.(subprojetoId := TextoAparado(s.subprojetoId),
       tarefas := Some(if s.tarefas.Some? then Mapear(SanitizarTarefa, s.tarefas.value) else []))
  }

  /** A sanitized project has trimmed text, present dates and a
      sub-project list, one sanitized sub-project per original, and keeps
      every other field. */
  function SanitizarProjeto(p: Projeto): (r: Projeto)
    ensures TextoSaneado(r.nome) && TextoSaneado(r.descricao) && TextoSaneado(r.clienteId)
    ensures r.dataInicio.Some? && r.dataFimPrevista.Some? && r.subprojetos.Some? && r.extra == p.extra
    ensures |r.subprojetos.value| == |p.subprojetos.GetOr([])|
  {
    p.(nome := TextoAparado(p.nome),
       descricao := TextoAparado(p.descricao),
       clienteId := TextoAparado(p.clienteId),
       dataInicio := OuVazio(p.dataInicio),
       dataFimPrevista := OuVazio(p.dataFimPrevista),
       subprojetos := Some(if p.subprojetos.Some? then Mapear(SanitizarSubprojeto, p.subprojetos.value) else []))
  }

  // ---------------------------------------------------------------------
  // The sanitized form
  // ---------------------------------------------------------------------

  /** A text field as `sanitizarProjeto` leaves it: present and trimmed. */
  predicate TextoSaneado(campo: Option<string>) {
    campo.Some? && Aparado(campo.value)
  }

  predicate TarefaSaneada(t: Tarefa) {
    TextoSaneado(t.tarefaId) && TextoSaneado(t.observacoes)
    && t.dataInicio.Some? && t.dataFimPrevista.Some? && t.dataFimReal.Some?
    && Presente(t.status)
  }

  predicate SubprojetoSaneado(s: Subprojeto) {
    TextoSaneado(s.subprojetoId) && s.tarefas.Some?
    && forall k :: 0 <= k < |s.tarefas.value| ==> TarefaSaneada(s.tarefas.value[k])
  }

  predicate ProjetoSaneado(p: Projeto) {
    TextoSaneado(p.nome) && TextoSaneado(p.descricao) && TextoSaneado(p.clienteId)
    && p.dataInicio.Some? && p.dataFimPrevista.Some? && p.subprojetos.Some?
    && forall k :: 0 <= k < |p.subprojetos.value| ==> SubprojetoSaneado(p.subprojetos.value[k])
  }

  /** A trimmed text field is the field's trimmed value, empty when it is
      missing; it is blank exactly when the original is, and trimming it
      again changes nothing. */
  lemma TextoAparadoCorreto(campo: Option<string>)
    ensures TextoAparado(campo) == Some(Aparada(campo))
    ensures TextoSaneado(TextoAparado(campo))
    ensures Aparada(TextoAparado(campo)) == Aparada(campo)
    ensures EmBranco(TextoAparado(campo)) <==> EmBranco(campo)
    ensures TextoSaneado(campo) ==> TextoAparado(campo) == campo
  {
    TrimCorreto(campo.GetOr(""));
    TrimIdempotente(campo.GetOr(""));
    EmBrancoAparada(campo);
    EmBrancoAparada(TextoAparado(campo));
  }

  /** Each element of a mapped sequence is the image of the element at the
      same position. */
  lemma MapearPosicoes<A, B>(f: A -> B, xs: seq<A>)
    ensures |Mapear(f, xs)| == |xs|
    ensures forall k :: 0 <= k < |xs| ==> Mapear(f, xs)[k] == f(xs[k])
  {
    forall k | 0 <= k < |xs|
      ensures Mapear(f, xs)[k] == f(xs[k])
    {
      MapearElemento(f, xs, k);
    }
  }

  /** Mapping a function that leaves every element alone leaves the
      sequence alone. */
  lemma MapearPontoFixo<A>(f: A -> A, xs: seq<A>)
    requires forall k :: 0 <= k < |xs| ==> f(xs[k]) == xs[k]
    ensures Mapear(f, xs) == xs
  {
    MapearPosicoes(f, xs);
  }

  /** A sanitized task is in the sanitized form and keeps every field the
      sanitizer does not name; a task already in that form is unchanged. */
  lemma SanitizarTarefaSaneada(t: Tarefa)
    ensures TarefaSaneada(SanitizarTarefa(t))
    ensures SanitizarTarefa(t).extra == t.extra
    ensures TarefaSaneada(t) ==> SanitizarTarefa(t) == t
  {
    TextoAparadoCorreto(t.tarefaId);
    TextoAparadoCorreto(t.observacoes);
  }

  /** A sanitized sub-project is in the sanitized form, keeps its other
      fields and holds the sanitized tasks, one per task and in order; a
      sub-project already in that form is unchanged. */
  lemma SanitizarSubprojetoSaneado(s: Subprojeto)
    ensures SubprojetoSaneado(SanitizarSubprojeto(s))
    ensures SanitizarSubprojeto(s).extra == s.extra
    ensures |SanitizarSubprojeto(s).tarefas.value| == |s.tarefas.GetOr([])|
    ensures forall k :: 0 <= k < |s.tarefas.GetOr([])| ==>
              SanitizarSubprojeto(s).tarefas.value[k] == SanitizarTarefa(s.tarefas.GetOr([])[k])
    ensures SubprojetoSaneado(s) ==> SanitizarSubprojeto(s) == s
  {
    TextoAparadoCorreto(s.subprojetoId);
    var tarefas := s.tarefas.GetOr([]);
    MapearPosicoes(SanitizarTarefa, tarefas);
    forall k | 0 <= k < |tarefas|
      ensures TarefaSaneada(SanitizarTarefa(tarefas[k]))
      ensures TarefaSaneada(tarefas[k]) ==> SanitizarTarefa(tarefas[k]) == tarefas[k]
    {
      SanitizarTarefaSaneada(tarefas[k]);
    }
    if SubprojetoSaneado(s) {
      MapearPontoFixo(SanitizarTarefa, tarefas);
    }
  }

  /** A sanitized project is in the sanitized form, keeps its other fields
      and holds the sanitized sub-projects, one per sub-project and in
      order; a project already in that form is unchanged. */
  lemma SanitizarProjetoSaneado(p: Projeto)
    ensures ProjetoSaneado(SanitizarProjeto(p))
    ensures SanitizarProjeto(p).extra == p.extra
    ensures |SanitizarProjeto(p).subprojetos.value| == |p.subprojetos.GetOr([])|
    ensures forall k :: 0 <= k < |p.subprojetos.GetOr([])| ==>
              SanitizarProjeto(p).subprojetos.value[k] == SanitizarSubprojeto(p.subprojetos.GetOr([])[k])
    ensures ProjetoSaneado(p) ==> SanitizarProjeto(p) == p
  {
    TextoAparadoCorreto(p.nome);
    TextoAparadoCorreto(p.descricao);
    TextoAparadoCorreto(p.clienteId);
    var subprojetos := p.subprojetos.GetOr([]);
    MapearPosicoes(SanitizarSubprojeto, subprojetos);
    forall k | 0 <= k < |subprojetos|
      ensures SubprojetoSaneado(SanitizarSubprojeto(subprojetos[k]))
      ensures SubprojetoSaneado(subprojetos[k]) ==> SanitizarSubprojeto(subprojetos[k]) == subprojetos[k]
    {
      SanitizarSubprojetoSaneado(subprojetos[k]);
    }
    if ProjetoSaneado(p) {
      MapearPontoFixo(SanitizarSubprojeto, subprojetos);
    }
  }

  /** Sanitizing twice gives what sanitizing once gives. */
  lemma SanitizarProjetoIdempotente(p: Projeto)
    ensures SanitizarProjeto(SanitizarProjeto(p)) == SanitizarProjeto(p)
  {
    SanitizarProjetoSaneado(p);
    SanitizarProjetoSaneado(SanitizarProjeto(p));
  }

  // ---------------------------------------------------------------------
  // Sanitizing and validating
  // ---------------------------------------------------------------------

  /** A text check sees the same trimmed value before and after. */
  lemma TextoAparadoValor(campo: Option<string>)
    ensures EmBranco(TextoAparado(campo)) <==> EmBranco(campo)
    ensures !EmBranco(campo) ==> Trim(TextoAparado(campo).value) == Trim(campo.value)
  {
    TextoAparadoCorreto(campo);
    TrimIdempotente(campo.GetOr(""));
  }

  /** `validarProjeto` reports the same messages for the sanitized project
      as for the original. */
  lemma ErrosProjetoSanitizado(p: Projeto, ler: LeituraData, hoje: int)
    ensures ErrosProjeto(SanitizarProjeto(p), ler, hoje) == ErrosProjeto(p, ler, hoje)
  {
    var q := SanitizarProjeto(p);
    TextoAparadoValor(p.nome);
    TextoAparadoValor(p.descricao);
    TextoAparadoValor(p.clienteId);
    assert ErrosNome(q.nome) == ErrosNome(p.nome);
    assert ErrosDescricao(q.descricao) == ErrosDescricao(p.descricao);
    assert ErrosDatasObrigatorias(q) == ErrosDatasObrigatorias(p);
  }

  /** `validarSubprojeto` reports the same messages for a sanitized
      sub-project as for the original: a missing task list becomes empty,
      which fails the same check. */
  lemma ErrosSubprojetoSanitizado(s: Subprojeto)
    ensures ErrosSubprojeto(SanitizarSubprojeto(s)) == ErrosSubprojeto(s)
  {
    TextoAparadoValor(s.subprojetoId);
  }

  /** Sanitizing a task changes none of its checks except two: the notes
      are trimmed, so a notes error can only disappear; and a missing
      status becomes `"NAO_INICIADA"`, which matters only beside a real end
      date. */
  lemma ErrosTarefaSanitizada(t: Tarefa, ler: LeituraData)
    ensures ErroIdTarefa(SanitizarTarefa(t)) == ErroIdTarefa(t)
    ensures ErroFimPrevista(SanitizarTarefa(t), ler) == ErroFimPrevista(t, ler)
    ensures ErroStatus(SanitizarTarefa(t)) == ErroStatus(t)
    ensures Presente(t.status) || !Presente(t.dataFimReal) ==>
              ErrosFimReal(SanitizarTarefa(t), ler) == ErrosFimReal(t, ler)
    ensures ErroObservacoes(SanitizarTarefa(t)) != [] ==> ErroObservacoes(t) != []
  {
    TextoAparadoValor(t.tarefaId);
    TextoAparadoCorreto(t.observacoes);
    TrimCorreto(t.observacoes.GetOr(""));
  }

  /** A task with a real end date and no status passes the status check
      before sanitizing and fails it afterwards, since the default status
      is not a closed one. */
  lemma StatusPadraoComFimReal(t: Tarefa, ler: LeituraData)
    requires Presente(t.dataFimReal) && !Presente(t.status)
    ensures StatusComFimReal !in MotivosTarefa(t, ler)
    ensures StatusComFimReal in MotivosTarefa(SanitizarTarefa(t), ler)
  {
    MotivosTarefaCorreto(t, ler);
    MotivosTarefaCorreto(SanitizarTarefa(t), ler);
    assert StatusPadrao !in StatusEncerrados;
  }

  /** Notes over 500 characters whose trimmed value fits fail the notes
      check before sanitizing and pass it afterwards. */
  lemma ObservacoesAparadas(t: Tarefa, ler: LeituraData)
    requires t.observacoes.Some? && |t.observacoes.value| > 500 && |Trim(t.observacoes.value)| <= 500
    ensures ObservacoesLongas in MotivosTarefa(t, ler)
    ensures ObservacoesLongas !in MotivosTarefa(SanitizarTarefa(t), ler)
  {
    MotivosTarefaCorreto(t, ler);
    MotivosTarefaCorreto(SanitizarTarefa(t), ler);
    TextoAparadoCorreto(t.observacoes);
  }
}
