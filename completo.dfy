/** `validarProjetoCompleto`: the project checks first; only when they all
    pass, the checks of every sub-project and of every task, each failed
    sub-project or task reported as one joined message. */
module Completo {
  import opened Opcional
  import opened Texto
  import opened Entidades
  import opened Regras

  /** `Subprojeto ${i + 1}`, the label of the sub-project at index `i`. */
  function RotuloSubprojeto(i: nat): string {
    "Subprojeto " + Decimal(i + 1)
  }

  /** The sub-projects of a project; a missing list has none. */
  function SubprojetosDe(p: Projeto): seq<Subprojeto> {
    p.subprojetos.GetOr([])
  }

  /** The tasks of a sub-project; a missing list has none. */
  function TarefasDe(s: Subprojeto): seq<Tarefa> {
    s.tarefas.GetOr([])
  }

  /** The message pushed for the sub-project at index `i` when its own
      checks fail: its label, then its messages joined by `", "`. */
  function MensagemSubprojeto(i: nat, s: Subprojeto): (r: seq<string>)
    ensures |r| <= 1
    ensures r == [] <==> ErrosSubprojeto(s) == []
  {
    if ErrosSubprojeto(s) == [] then []
    else [RotuloSubprojeto(i) + ": " + Juntar(Mapear(TextoErroSubprojeto, ErrosSubprojeto(s)), ", ")]
  }

  /** The message pushed for the task at index `j` of the sub-project at
      index `i` when its checks fail. */
  function MensagemTarefa(i: nat, j: nat, t: Tarefa, ler: LeituraData): (r: seq<string>)
    ensures |r| <= 1
    ensures r == [] <==> TarefaSemFalhas(t, ler)
  {
    if ErrosTarefa(t, j, ler) == [] then []
    else [RotuloSubprojeto(i) + " - " + Juntar(ErrosTarefa(t, j, ler), ", ")]
  }

  /** What `xs.forEach((x, j) => ...)` has pushed after visiting the first
      `n` elements, when the visit of element `j` pushes `f(j, x)`. */
  function Acumular<T>(f: (nat, T) -> seq<string>, xs: seq<T>, n: nat): seq<string>
    requires n <= |xs|
  {
    if n == 0 then [] else Acumular(f, xs, n - 1) + f(n - 1, xs[n - 1])
  }

  /** The visit of a task inside the sub-project at index `i`. */
  function VisitaTarefa(i: nat, ler: LeituraData): (nat, Tarefa) -> seq<string> {
    (j: nat, t: Tarefa) => MensagemTarefa(i, j, t, ler)
  }

  /** Everything pushed while visiting the sub-project at index `i`: its
      own message, then those of its tasks. */
  function MensagensDoSubprojeto(i: nat, s: Subprojeto, ler: LeituraData): seq<string> {
    MensagemSubprojeto(i, s) + Acumular(VisitaTarefa(i, ler), TarefasDe(s), |TarefasDe(s)|)
  }

  /** The visit of a sub-project. */
  function VisitaSubprojeto(ler: LeituraData): (nat, Subprojeto) -> seq<string> {
    (i: nat, s: Subprojeto) => MensagensDoSubprojeto(i, s, ler)
  }

  /** The messages `validarProjetoCompleto` returns: one per failed
      project check when there are any; with no sub-projects, none
      beyond those. */
  function ErrosCompletos(p: Projeto, ler: LeituraData, hoje: int): (r: seq<string>)
    ensures ErrosProjeto(p, ler, hoje) != [] ==> |r| == |ErrosProjeto(p, ler, hoje)|
    ensures SubprojetosDe(p) == [] ==> (r == [] <==> ErrosProjeto(p, ler, hoje) == [])
  {
    if ErrosProjeto(p, ler, hoje) != [] then Mapear(TextoErroProjeto, ErrosProjeto(p, ler, hoje))
    else Acumular(VisitaSubprojeto(ler), SubprojetosDe(p), |SubprojetosDe(p)|)
  }

  /** A sub-project that passes its own checks and whose every task passes
      its checks. */
  predicate SubprojetoSemFalhas(s: Subprojeto, ler: LeituraData) {
    ErrosSubprojeto(s) == [] && forall j :: 0 <= j < |TarefasDe(s)| ==> TarefaSemFalhas(TarefasDe(s)[j], ler)
  }

  /** One more visit extends what was pushed by what that visit pushes. */
  lemma AcumularPasso<T>(f: (nat, T) -> seq<string>, xs: seq<T>, n: nat)
    requires n < |xs|
    ensures Acumular(f, xs, n + 1) == Acumular(f, xs, n) + f(n, xs[n])
  {
  }

  /** `visita` pushes, for the task at index `j` of the sub-project at index
      `i`, exactly what `MensagemTarefa` says. */
  ghost predicate VisitaDeTarefas(visita: (nat, Tarefa) -> seq<string>, i: nat, ler: LeituraData) {
    forall j: nat, t: Tarefa {:trigger MensagemTarefa(i, j, t, ler)} :: visita(j, t) == MensagemTarefa(i, j, t, ler)
  }

  /** `visita` pushes, for the sub-project at index `i`, exactly what
      `MensagensDoSubprojeto` says. */
  ghost predicate VisitaDeSubprojetos(visita: (nat, Subprojeto) -> seq<string>, ler: LeituraData) {
    forall i: nat, s: Subprojeto {:trigger MensagensDoSubprojeto(i, s, ler)} :: visita(i, s) == MensagensDoSubprojeto(i, s, ler)
  }

  /** The callback of the inner `forEach`: validates the task at index
      `j` of the sub-project at index `i` and pushes its joined messages
      when it fails. */
  method VisitarTarefa(erros: seq<string>, i: nat, j: nat, tarefa: Tarefa, ler: LeituraData,
                       ghost visita: (nat, Tarefa) -> seq<string>)
    returns (saida: seq<string>)
    requires VisitaDeTarefas(visita, i, ler)
    ensures saida == erros + visita(j, tarefa)
  {
    saida := erros;
    var resultadoTarefa := ValidarTarefa(tarefa, j, ler);
    if !resultadoTarefa.valido {
      saida := saida + [RotuloSubprojeto(i) + " - " + Juntar(resultadoTarefa.erros, ", ")];
    }
    assert visita(j, tarefa) == MensagemTarefa(i, j, tarefa, ler);
  }

  /** The inner `forEach`: visits the tasks of the sub-project at index
      `i` in order. */
  method VisitarTarefas(erros: seq<string>, i: nat, tarefas: seq<Tarefa>, ler: LeituraData,
                        ghost visita: (nat, Tarefa) -> seq<string>)
    returns (saida: seq<string>)
    requires VisitaDeTarefas(visita, i, ler)
    ensures saida == erros + Acumular(visita, tarefas, |tarefas|)
  {
    saida := erros;
    var j := 0;
    while j < |tarefas|
      invariant j <= |tarefas|
      invariant saida == erros + Acumular(visita, tarefas, j)
    {
      ghost var visitadas := Acumular(visita, tarefas, j);
      saida := VisitarTarefa(saida, i, j, tarefas[j], ler, visita);
      AcumularPasso(visita, tarefas, j);
      Associar(erros, visitadas, visita(j, tarefas[j]));
      j := j + 1;
    }
  }

  /** The callback of the outer `forEach`: validates the sub-project at
      index `i`, pushes its joined messages when it fails, then visits its
      tasks in order when it has any. */
  method VisitarSubprojeto(erros: seq<string>, i: nat, subprojeto: Subprojeto, ler: LeituraData,
                           ghost visita: (nat, Subprojeto) -> seq<string>)
    returns (saida: seq<string>)
    requires VisitaDeSubprojetos(visita, ler)
    ensures saida == erros + visita(i, subprojeto)
  {
    saida := erros;
    var resultadoSub := ValidarSubprojeto(subprojeto);
    if !resultadoSub.valido {
      saida := saida + [RotuloSubprojeto(i) + ": " + Juntar(resultadoSub.erros, ", ")];
    }
    assert saida == erros + MensagemSubprojeto(i, subprojeto);

    ghost var visitaTarefa := VisitaTarefa(i, ler);
    assert VisitaDeTarefas(visitaTarefa, i, ler);
    if subprojeto.tarefas.Some? && |subprojeto.tarefas.value| > 0 {
      saida := VisitarTarefas(saida, i, subprojeto.tarefas.value, ler, visitaTarefa);
      Associar(erros, MensagemSubprojeto(i, subprojeto), Acumular(visitaTarefa, TarefasDe(subprojeto), |TarefasDe(subprojeto)|));
    } else {
      assert TarefasDe(subprojeto) == [];
      assert saida == erros + (MensagemSubprojeto(i, subprojeto) + []);
    }
    assert visita(i, subprojeto) == MensagensDoSubprojeto(i, subprojeto, ler);
  }

  /** The outer `forEach`: visits the sub-projects in order. */
  method VisitarSubprojetos(erros: seq<string>, subprojetos: seq<Subprojeto>, ler: LeituraData,
                            ghost visita: (nat, Subprojeto) -> seq<string>)
    returns (saida: seq<string>)
    requires VisitaDeSubprojetos(visita, ler)
    ensures saida == erros + Acumular(visita, subprojetos, |subprojetos|)
  {
    saida := erros;
    var k := 0;
    while k < |subprojetos|
      invariant k <= |subprojetos|
      invariant saida == erros + Acumular(visita, subprojetos, k)
    {
      ghost var visitados := Acumular(visita, subprojetos, k);
      saida := VisitarSubprojeto(saida, k, subprojetos[k], ler, visita);
      AcumularPasso(visita, subprojetos, k);
      Associar(erros, visitados, visita(k, subprojetos[k]));
      k := k + 1;
    }
  }

  lemma Associar(a: seq<string>, b: seq<string>, c: seq<string>)
    ensures (a + b) + c == a + (b + c)
  {
  }

  /** `validarProjetoCompleto`. An invalid project is returned as
      `validarProjeto` reported it, without visiting its sub-projects. */
  method ValidarProjetoCompleto(projeto: Projeto, ler: LeituraData, hoje: int) returns (r: Resultado)
    ensures r.erros == ErrosCompletos(projeto, ler, hoje)
    ensures r.valido <==> r.erros == []
  {
    var resultadoProjeto := ValidarProjeto(projeto, ler, hoje);
    if !resultadoProjeto.valido {
      return resultadoProjeto;
    }

    var errosGerais: seq<string> := [];
    ghost var visita := VisitaSubprojeto(ler);
    assert VisitaDeSubprojetos(visita, ler);
    if projeto.subprojetos.Some? && |projeto.subprojetos.value| > 0 {
      errosGerais := VisitarSubprojetos(errosGerais, projeto.subprojetos.value, ler, visita);
      assert [] + Acumular(visita, SubprojetosDe(projeto), |SubprojetosDe(projeto)|)
             == Acumular(visita, SubprojetosDe(projeto), |SubprojetosDe(projeto)|);
    }
    r := Resultado(|errosGerais| == 0, errosGerais);
  }

  /** Nothing is pushed over the first `n` elements exactly when the visit
      of each of them pushes nothing. */
  lemma {:induction false} AcumularVazio<T>(f: (nat, T) -> seq<string>, xs: seq<T>, n: nat, ok: T -> bool)
    requires n <= |xs|
    requires forall j: nat, x: T :: f(j, x) == [] <==> ok(x)
    ensures Acumular(f, xs, n) == [] <==> forall j :: 0 <= j < n ==> ok(xs[j])
  {
    if n > 0 {
      AcumularVazio(f, xs, n - 1, ok);
    }
  }

  /** When every visit pushes at most `k` messages, `n` visits push at most
      `k * n`. */
  lemma {:induction false} AcumularTamanho<T>(f: (nat, T) -> seq<string>, xs: seq<T>, n: nat, k: nat)
    requires n <= |xs|
    requires forall j: nat, x: T :: |f(j, x)| <= k
    ensures |Acumular(f, xs, n)| <= k * n
  {
    if n > 0 {
      AcumularTamanho(f, xs, n - 1, k);
    }
  }

  /** When every message of every visit starts with `rotulo`, so does every
      message pushed. */
  lemma {:induction false} AcumularRotulado<T>(f: (nat, T) -> seq<string>, xs: seq<T>, n: nat, rotulo: string)
    requires n <= |xs|
    requires forall j: nat, x: T, m :: m in f(j, x) ==> rotulo <= m
    ensures forall m :: m in Acumular(f, xs, n) ==> rotulo <= m
  {
    if n > 0 {
      AcumularRotulado(f, xs, n - 1, rotulo);
    }
  }

  /** The sum of `limite` over the first `n` elements. */
  function Somar<T>(limite: T -> nat, xs: seq<T>, n: nat): nat
    requires n <= |xs|
  {
    if n == 0 then 0 else Somar(limite, xs, n - 1) + limite(xs[n - 1])
  }

  /** When the visit of each element pushes at most `limite` of it, the
      visits push at most the sum of those limits. */
  lemma {:induction false} AcumularLimitado<T>(f: (nat, T) -> seq<string>, xs: seq<T>, n: nat, limite: T -> nat)
    requires n <= |xs|
    requires forall j: nat, x: T :: |f(j, x)| <= limite(x)
    ensures |Acumular(f, xs, n)| <= Somar(limite, xs, n)
  {
    if n > 0 {
      AcumularLimitado(f, xs, n - 1, limite);
    }
  }

  /** Each sub-project may add one message of its own and one per task. */
  function LimiteSubprojeto(s: Subprojeto): nat {
    1 + |TarefasDe(s)|
  }

  /** A valid project's complete validation gives at most one message per
      sub-project plus one per task. */
  lemma ErrosCompletosLimitados(p: Projeto, ler: LeituraData, hoje: int)
    requires ErrosProjeto(p, ler, hoje) == []
    ensures |ErrosCompletos(p, ler, hoje)| <= Somar(LimiteSubprojeto, SubprojetosDe(p), |SubprojetosDe(p)|)
  {
    forall i: nat, s: Subprojeto
      ensures |VisitaSubprojeto(ler)(i, s)| <= LimiteSubprojeto(s)
    {
      MensagensDoSubprojetoVazias(i, s, ler);
    }
    AcumularLimitado(VisitaSubprojeto(ler), SubprojetosDe(p), |SubprojetosDe(p)|, LimiteSubprojeto);
  }

  /** The visits of a one-element sequence push what the visit of that
      element pushes. */
  lemma AcumularUm<T>(f: (nat, T) -> seq<string>, xs: seq<T>)
    requires |xs| == 1
    ensures Acumular(f, xs, 1) == f(0, xs[0])
  {
    assert Acumular(f, xs, 0) == [];
  }

  /** A sub-project without tasks pushes its own message alone. */
  lemma MensagensSemTarefas(i: nat, s: Subprojeto, ler: LeituraData)
    requires TarefasDe(s) == []
    ensures MensagensDoSubprojeto(i, s, ler) == MensagemSubprojeto(i, s)
  {
    assert Acumular(VisitaTarefa(i, ler), TarefasDe(s), 0) == [];
  }

  /** A valid project whose one sub-project has no tasks gets exactly one
      message: that sub-project's own, which reports the missing tasks. */
  lemma SubprojetoUnicoSemTarefas(p: Projeto, ler: LeituraData, hoje: int)
    requires ErrosProjeto(p, ler, hoje) == []
    requires |SubprojetosDe(p)| == 1 && TarefasDe(SubprojetosDe(p)[0]) == []
    ensures SubprojetoSemTarefas in ErrosSubprojeto(SubprojetosDe(p)[0])
    ensures ErrosCompletos(p, ler, hoje) == MensagemSubprojeto(0, SubprojetosDe(p)[0])
    ensures |ErrosCompletos(p, ler, hoje)| == 1
  {
    var s := SubprojetosDe(p)[0];
    ErrosSubprojetoCorreto(s);
    AcumularUm(VisitaSubprojeto(ler), SubprojetosDe(p));
    MensagensSemTarefas(0, s, ler);
  }

  /** A sub-project adds no message exactly when it and each of its tasks
      pass every check; otherwise it adds at most one message of its own
      and one per task. */
  lemma MensagensDoSubprojetoVazias(i: nat, s: Subprojeto, ler: LeituraData)
    ensures MensagensDoSubprojeto(i, s, ler) == [] <==> SubprojetoSemFalhas(s, ler)
    ensures |MensagensDoSubprojeto(i, s, ler)| <= 1 + |TarefasDe(s)|
  {
    var ok := (t: Tarefa) => TarefaSemFalhas(t, ler);
    forall j: nat, t: Tarefa
      ensures VisitaTarefa(i, ler)(j, t) == [] <==> ok(t)
      ensures |VisitaTarefa(i, ler)(j, t)| <= 1
    {
    }
    AcumularVazio(VisitaTarefa(i, ler), TarefasDe(s), |TarefasDe(s)|, ok);
    AcumularTamanho(VisitaTarefa(i, ler), TarefasDe(s), |TarefasDe(s)|, 1);
  }

  /** A project passes the complete validation exactly when the project
      checks pass and every sub-project and every task passes its own. A
      project without sub-projects needs nothing more than the project
      checks. */
  lemma ProjetoCompletoValido(p: Projeto, ler: LeituraData, hoje: int)
    ensures ErrosCompletos(p, ler, hoje) == [] <==>
              ErrosProjeto(p, ler, hoje) == []
              && forall i :: 0 <= i < |SubprojetosDe(p)| ==> SubprojetoSemFalhas(SubprojetosDe(p)[i], ler)
  {
    var ok := (s: Subprojeto) => SubprojetoSemFalhas(s, ler);
    forall i: nat, s: Subprojeto
      ensures VisitaSubprojeto(ler)(i, s) == [] <==> ok(s)
    {
      MensagensDoSubprojetoVazias(i, s, ler);
    }
    AcumularVazio(VisitaSubprojeto(ler), SubprojetosDe(p), |SubprojetosDe(p)|, ok);
  }

  /** When the project checks fail, the result is exactly what
      `validarProjeto` reports, whatever the sub-projects hold. */
  lemma ProjetoInvalidoPrevalece(p: Projeto, subprojetos: Option<seq<Subprojeto>>, ler: LeituraData, hoje: int)
    requires ErrosProjeto(p, ler, hoje) != []
    ensures ErrosCompletos(p.(subprojetos := subprojetos), ler, hoje) == Mapear(TextoErroProjeto, ErrosProjeto(p, ler, hoje))
    ensures ErrosCompletos(p, ler, hoje) != []
  {
    assert ErrosProjeto(p.(subprojetos := subprojetos), ler, hoje) == ErrosProjeto(p, ler, hoje);
  }

  /** The message of a failed task names the sub-project, then the task by
      its position within that sub-project (counted again from 1 in each
      sub-project), then its first failed check. */
  lemma MensagemTarefaForma(i: nat, j: nat, t: Tarefa, ler: LeituraData)
    ensures MensagemTarefa(i, j, t, ler) == [] <==> TarefaSemFalhas(t, ler)
    ensures !TarefaSemFalhas(t, ler) ==>
              RotuloSubprojeto(i) + " - " + PrefixoTarefa(j) + TextoErroTarefa(MotivosTarefa(t, ler)[0])
              <= MensagemTarefa(i, j, t, ler)[0]
  {
    if !TarefaSemFalhas(t, ler) {
      ErrosTarefaPrimeiro(t, j, ler);
      var rotulo, texto := RotuloSubprojeto(i) + " - ", TextoErroTarefa(MotivosTarefa(t, ler)[0]);
      PrimeiroJuntado(rotulo, ErrosTarefa(t, j, ler));
      assert rotulo + PrefixoTarefa(j) + texto == rotulo + (PrefixoTarefa(j) + texto);
    }
  }

  /** A label followed by the first of the joined messages begins the
      label followed by all of them. */
  lemma PrimeiroJuntado(rotulo: string, xs: seq<string>)
    requires xs != []
    ensures rotulo + xs[0] <= rotulo + Juntar(xs, ", ")
  {
    assert xs[0] <= Juntar(xs, ", ");
  }

  /** The message of a failed sub-project names it, then its first failed
      check. */
  lemma MensagemSubprojetoForma(i: nat, s: Subprojeto)
    ensures MensagemSubprojeto(i, s) == [] <==> ErrosSubprojeto(s) == []
    ensures ErrosSubprojeto(s) != [] ==>
              RotuloSubprojeto(i) + ": " + TextoErroSubprojeto(ErrosSubprojeto(s)[0]) <= MensagemSubprojeto(i, s)[0]
  {
    var motivos := ErrosSubprojeto(s);
    if motivos != [] {
      MapearPrimeiro(TextoErroSubprojeto, motivos);
      PrimeiroJuntado(RotuloSubprojeto(i) + ": ", Mapear(TextoErroSubprojeto, motivos));
    }
  }

  /** Every message of a valid project's complete validation starts with
      the label of a sub-project. */
  lemma MensagensRotuladas(p: Projeto, ler: LeituraData, hoje: int)
    requires ErrosProjeto(p, ler, hoje) == []
    ensures forall m :: m in ErrosCompletos(p, ler, hoje) ==> "Subprojeto " <= m
  {
    forall i: nat, s: Subprojeto, m | m in VisitaSubprojeto(ler)(i, s)
      ensures "Subprojeto " <= m
    {
      MensagensDoSubprojetoRotuladas(i, s, ler);
      assert "Subprojeto " <= RotuloSubprojeto(i) + ": " && "Subprojeto " <= RotuloSubprojeto(i) + " - ";
    }
    AcumularRotulado(VisitaSubprojeto(ler), SubprojetosDe(p), |SubprojetosDe(p)|, "Subprojeto ");
  }

  /** `m` begins as a message of the sub-project at index `i` does: its
      label, then `": "` (its own checks) or `" - "` (one of its tasks). */
  predicate RotuladaCom(i: nat, m: string) {
    RotuloSubprojeto(i) + ": " <= m || RotuloSubprojeto(i) + " - " <= m
  }

  /** Every message pushed while visiting the sub-project at index `i`
      starts with its label followed by `": "` or `" - "`. */
  lemma MensagensDoSubprojetoRotuladas(i: nat, s: Subprojeto, ler: LeituraData)
    ensures forall m :: m in MensagensDoSubprojeto(i, s, ler) ==> RotuladaCom(i, m)
  {
    var rotulo := RotuloSubprojeto(i) + " - ";
    forall j: nat, t: Tarefa, m | m in VisitaTarefa(i, ler)(j, t)
      ensures rotulo <= m
    {
      var juntado := Juntar(ErrosTarefa(t, j, ler), ", ");
      assert m == rotulo + juntado;
    }
    AcumularRotulado(VisitaTarefa(i, ler), TarefasDe(s), |TarefasDe(s)|, rotulo);
    if ErrosSubprojeto(s) != [] {
      var juntado := Juntar(Mapear(TextoErroSubprojeto, ErrosSubprojeto(s)), ", ");
      assert MensagemSubprojeto(i, s)[0] == (RotuloSubprojeto(i) + ": ") + juntado;
    }
  }

  /** Two digit strings that each follow `p` in `m` and are each
      followed by a non-digit are equal. */
  lemma {:induction false} DigitosAte(p: string, a: string, b: string, m: string)
    requires SoDigitosEm(a) && SoDigitosEm(b)
    requires |p| + |a| < |m| && m[..|p| + |a|] == p + a && !EhDigito(m[|p| + |a|])
    requires |p| + |b| < |m| && m[..|p| + |b|] == p + b && !EhDigito(m[|p| + |b|])
    ensures a == b
  {
    assert forall j :: 0 <= j < |a| ==> m[|p| + j] == a[j] by {
      forall j | 0 <= j < |a| ensures m[|p| + j] == a[j] {
        assert m[..|p| + |a|][|p| + j] == (p + a)[|p| + j];
      }
    }
    assert forall j :: 0 <= j < |b| ==> m[|p| + j] == b[j] by {
      forall j | 0 <= j < |b| ensures m[|p| + j] == b[j] {
        assert m[..|p| + |b|][|p| + j] == (p + b)[|p| + j];
      }
    }
  }

  /** The label of a message names one sub-project only: `Subprojeto 1`
      is a prefix of `Subprojeto 10`, but `Subprojeto 1: ` and
      `Subprojeto 1 - ` are prefixes of no message of the tenth. */
  lemma RotuloUnico(i: nat, k: nat, m: string)
    requires RotuladaCom(i, m) && RotuladaCom(k, m)
    ensures i == k
  {
    var p, a, b := "Subprojeto ", Decimal(i + 1), Decimal(k + 1);
    assert m[..|p| + |a|] == p + a && !EhDigito(m[|p| + |a|]) by {
      assert RotuloSubprojeto(i) == p + a;
    }
    assert m[..|p| + |b|] == p + b && !EhDigito(m[|p| + |b|]) by {
      assert RotuloSubprojeto(k) == p + b;
    }
    DigitosAte(p, a, b, m);
    DecimalInjetivo(i + 1, k + 1);
  }
}
