/** The rule validators `validarProjeto`, `validarSubprojeto` and
    `validarTarefa`. Each builds its list of Portuguese messages by pushing
    onto a local array, one check after another; the methods below do the
    same, and are proved equal to functions that list the failed checks as
    error kinds in that fixed order. */
module Regras {
  import opened Opcional
  import opened Texto
  import opened Entidades

  /** Trimmed value of a text field, empty when the field is missing. */
  function Aparada(campo: Option<string>): string {
    Trim(campo.GetOr(""))
  }

  /** The source's test `!campo || campo.trim().length === 0`. */
  predicate EmBranco(campo: Option<string>) {
    !Presente(campo) || |Trim(campo.value)| == 0
  }

  /** A field is blank exactly when its trimmed value is empty, whether it
      is missing, empty or made of whitespace. */
  lemma EmBrancoAparada(campo: Option<string>)
    ensures EmBranco(campo) <==> Aparada(campo) == ""
  {
  }

  /** `xs.map(f)`. */
  function Mapear<A, B>(f: A -> B, xs: seq<A>): (r: seq<B>)
    ensures |r| == |xs|
  {
    if xs == [] then [] else Mapear(f, xs[..|xs| - 1]) + [f(xs[|xs| - 1])]
  }

  /** Mapping distributes over concatenation. */
  lemma {:induction false} MapearConcat<A, B>(f: A -> B, xs: seq<A>, ys: seq<A>)
    ensures Mapear(f, xs + ys) == Mapear(f, xs) + Mapear(f, ys)
    decreases |ys|
  {
    if ys == [] {
      assert xs + ys == xs;
    } else {
      var init, last := ys[..|ys| - 1], ys[|ys| - 1];
      assert ys == init + [last];
      assert xs + ys == (xs + init) + [last];
      MapearAnexo(f, xs + init, last);
      MapearAnexo(f, init, last);
      MapearConcat(f, xs, init);
    }
  }

  /** Mapping after a push is pushing the mapped element. */
  lemma MapearAnexo<A, B>(f: A -> B, xs: seq<A>, x: A)
    ensures Mapear(f, xs + [x]) == Mapear(f, xs) + [f(x)]
  {
    assert (xs + [x])[..|xs|] == xs;
  }

  lemma MapearElementos<A, B>(f: A -> B, xs: seq<A>)
    requires |xs| <= 2
    ensures Mapear(f, xs) == if xs == [] then [] else if |xs| == 1 then [f(xs[0])] else [f(xs[0]), f(xs[1])]
  {
    if |xs| == 2 {
      assert xs[..1] == [xs[0]];
    }
  }

  /** Each element of the mapped sequence is `f` of the element at the same
      position. */
  lemma {:induction false} MapearElemento<A, B>(f: A -> B, xs: seq<A>, k: nat)
    requires k < |xs|
    ensures Mapear(f, xs)[k] == f(xs[k])
  {
    if k < |xs| - 1 {
      MapearElemento(f, xs[..|xs| - 1], k);
    }
  }

  /** The positions `posicao` gives the elements of `r` strictly increase
      along `r`: no element repeats and the order is the one `posicao` fixes. */
  predicate Crescente<T>(r: seq<T>, posicao: T -> nat) {
    forall i, j :: 0 <= i < j < |r| ==> posicao(r[i]) < posicao(r[j])
  }

  /** Every element of `r` has its position in `lo..hi`. */
  predicate Entre<T(==)>(r: seq<T>, posicao: T -> nat, lo: nat, hi: nat) {
    forall e :: e in r ==> lo <= posicao(e) < hi
  }

  /** Two increasing runs over consecutive ranges of positions make one. */
  lemma Anexar<T>(a: seq<T>, b: seq<T>, posicao: T -> nat, lo: nat, k: nat, hi: nat)
    requires lo <= k <= hi
    requires Crescente(a, posicao) && Entre(a, posicao, lo, k)
    requires Crescente(b, posicao) && Entre(b, posicao, k, hi)
    ensures Crescente(a + b, posicao) && Entre(a + b, posicao, lo, hi)
  {
    forall i, j | 0 <= i < j < |a + b|
      ensures posicao((a + b)[i]) < posicao((a + b)[j])
    {
      if j < |a| {
      } else if i < |a| {
        assert (a + b)[i] in a && (a + b)[j] in b;
      } else {
        assert (a + b)[i] == b[i - |a|] && (a + b)[j] == b[j - |a|];
      }
    }
    forall e | e in a + b
      ensures lo <= posicao(e) < hi
    {
      assert e in a || e in b;
    }
  }

  /** A run of at most one element, drawn from `es`. */
  lemma Alternativas<T>(r: seq<T>, es: seq<T>, posicao: T -> nat, lo: nat, hi: nat)
    requires r == [] || (|r| == 1 && r[0] in es)
    requires forall e :: e in es ==> lo <= posicao(e) < hi
    ensures Crescente(r, posicao) && Entre(r, posicao, lo, hi)
  {
  }

  /** A run that is some in-order selection of `a` and `b`. */
  lemma Par<T>(r: seq<T>, a: T, b: T, posicao: T -> nat, lo: nat, hi: nat)
    requires r == [] || r == [a] || r == [b] || r == [a, b]
    requires lo <= posicao(a) < posicao(b) < hi
    ensures Crescente(r, posicao) && Entre(r, posicao, lo, hi)
  {
  }

  // ---------------------------------------------------------------------
  // validarProjeto
  // ---------------------------------------------------------------------

  /** The checks of `validarProjeto`, in the order the source runs them. */
  datatype ErroProjeto =
    | NomeObrigatorio | NomeCurto | NomeLongo
    | DescricaoObrigatoria | DescricaoCurta | DescricaoLonga
    | ClienteObrigatorio | InicioObrigatorio | FimObrigatorio
    | InicioMuitoAnterior | FimNaoPosterior | DuracaoExcessiva

  /** The place of each check in `validarProjeto`. */
  function PosicaoProjeto(e: ErroProjeto): nat {
    match e
    case NomeObrigatorio => 0
    case NomeCurto => 1
    case NomeLongo => 2
    case DescricaoObrigatoria => 3
    case DescricaoCurta => 4
    case DescricaoLonga => 5
    case ClienteObrigatorio => 6
    case InicioObrigatorio => 7
    case FimObrigatorio => 8
    case InicioMuitoAnterior => 9
    case FimNaoPosterior => 10
    case DuracaoExcessiva => 11
  }

  /** The message the source pushes for each failed check. */
  function TextoErroProjeto(e: ErroProjeto): string {
    match e
    case NomeObrigatorio => "Nome do projeto é obrigatório"
    case NomeCurto => "Nome do projeto deve ter pelo menos 3 caracteres"
    case NomeLongo => "Nome do projeto deve ter no máximo 100 caracteres"
    case DescricaoObrigatoria => "Descrição do projeto é obrigatória"
    case DescricaoCurta => "Descrição deve ter pelo menos 10 caracteres"
    case DescricaoLonga => "Descrição deve ter no máximo 1000 caracteres"
    case ClienteObrigatorio => "Cliente é obrigatório"
    case InicioObrigatorio => "Data de início é obrigatória"
    case FimObrigatorio => "Data fim prevista é obrigatória"
    case InicioMuitoAnterior => "Data de início não pode ser muito anterior à data atual"
    case FimNaoPosterior => "Data fim prevista deve ser posterior à data de início"
    case DuracaoExcessiva => "Duração do projeto não pode exceder 5 anos"
  }

  /** Each check appears at most once and in the source's order. */
  predicate EmOrdemProjeto(r: seq<ErroProjeto>) {
    Crescente(r, PosicaoProjeto)
  }

  /** `nome`: at most one error, from the name group. */
  function ErrosNome(nome: Option<string>): (r: seq<ErroProjeto>)
    ensures r == [] || r == [NomeObrigatorio] || r == [NomeCurto] || r == [NomeLongo]
  {
    if EmBranco(nome) then [NomeObrigatorio]
    else if |Trim(nome.value)| < 3 then [NomeCurto]
    else if |Trim(nome.value)| > 100 then [NomeLongo]
    else []
  }

  /** The name is accepted exactly when its trimmed value has 3 to 100
      characters; otherwise the error says which bound it misses. */
  lemma ErrosNomeCorreto(nome: Option<string>)
    ensures ErrosNome(nome) == [] <==> 3 <= |Aparada(nome)| <= 100
    ensures ErrosNome(nome) == [NomeObrigatorio] <==> Aparada(nome) == ""
    ensures ErrosNome(nome) == [NomeCurto] <==> 0 < |Aparada(nome)| < 3
    ensures ErrosNome(nome) == [NomeLongo] <==> |Aparada(nome)| > 100
  {
  }

  /** `descricao`: at most one error, from the description group. */
  function ErrosDescricao(descricao: Option<string>): (r: seq<ErroProjeto>)
    ensures r == [] || r == [DescricaoObrigatoria] || r == [DescricaoCurta] || r == [DescricaoLonga]
  {
    if EmBranco(descricao) then [DescricaoObrigatoria]
    else if |Trim(descricao.value)| < 10 then [DescricaoCurta]
    else if |Trim(descricao.value)| > 1000 then [DescricaoLonga]
    else []
  }

  /** The description is accepted exactly when its trimmed value has 10 to
      1000 characters; otherwise the error says which bound it misses. */
  lemma ErrosDescricaoCorreto(descricao: Option<string>)
    ensures ErrosDescricao(descricao) == [] <==> 10 <= |Aparada(descricao)| <= 1000
    ensures ErrosDescricao(descricao) == [DescricaoObrigatoria] <==> Aparada(descricao) == ""
    ensures ErrosDescricao(descricao) == [DescricaoCurta] <==> 0 < |Aparada(descricao)| < 10
    ensures ErrosDescricao(descricao) == [DescricaoLonga] <==> |Aparada(descricao)| > 1000
  {
  }

  /** `clienteId`: at most the one error of its group. */
  function ErrosCliente(clienteId: Option<string>): (r: seq<ErroProjeto>)
    ensures r == [] || r == [ClienteObrigatorio]
  {
    if EmBranco(clienteId) then [ClienteObrigatorio] else []
  }

  /** The client is accepted exactly when its trimmed identifier is not
      empty. */
  lemma ErrosClienteCorreto(clienteId: Option<string>)
    ensures ErrosCliente(clienteId) == [] <==> Aparada(clienteId) != ""
  {
  }

  /** A required date: an error exactly when the string is missing or
      empty (a date is not trimmed). */
  function ErroDataObrigatoria(data: Option<string>, e: ErroProjeto): (r: seq<ErroProjeto>)
    ensures r == [] <==> data.Some? && data.value != ""
    ensures r == [] || r == [e]
  {
    if !Presente(data) then [e] else []
  }

  /** The start may not lie "more than one day" before today's midnight:
      the source compares the whole number of days elapsed with 1, so the
      error fires exactly when the start is two full days or more before
      `hoje`. An unreadable date adds nothing. */
  function ErroInicioPassado(dataInicio: Option<string>, ler: LeituraData, hoje: int): (r: seq<ErroProjeto>)
    ensures r == [] || r == [InicioMuitoAnterior]
    ensures r != [] <==> Presente(dataInicio) && ler(dataInicio.value).Some?
                         && hoje - ler(dataInicio.value).value >= 2 * Dia
  {
    if Presente(dataInicio) && ler(dataInicio.value).Some? then
      var inicio := ler(dataInicio.value).value;
      if inicio < hoje && (hoje - inicio) / Dia > 1 then [InicioMuitoAnterior] else []
    else []
  }

  /** `Math.ceil(|d| / Dia) > 1825` says no more and no less than that
      `|d|` exceeds 1825 days. */
  lemma {:induction false} DuracaoEmDias(ms: nat)
    ensures DiasParaCima(ms) > 1825 <==> ms > 1825 * Dia
  {
    var d := DiasParaCima(ms);
    if d > 1825 {
      assert (d - 1) * Dia >= 1825 * Dia;
    }
  }

  /** The order and length of the project period, checked only when both
      dates are present and readable. */
  function ErrosPeriodo(dataInicio: Option<string>, dataFim: Option<string>, ler: LeituraData): (r: seq<ErroProjeto>)
    ensures r == [] || r == [FimNaoPosterior] || r == [DuracaoExcessiva] || r == [FimNaoPosterior, DuracaoExcessiva]
    ensures r != [] ==> Presente(dataInicio) && Presente(dataFim)
  {
    if Presente(dataInicio) && Presente(dataFim) && ler(dataInicio.value).Some? && ler(dataFim.value).Some? then
      var inicio, fim := ler(dataInicio.value).value, ler(dataFim.value).value;
      (if fim <= inicio then [FimNaoPosterior] else [])
      + (if DiasParaCima(Abs(fim - inicio)) > 1825 then [DuracaoExcessiva] else [])
    else []
  }

  /** The end must come strictly after the start, and the period may last
      at most 1825 days; the length is measured in absolute value, so a
      reversed period that is long enough gets both errors. A missing or
      unreadable date switches both checks off. */
  lemma ErrosPeriodoCorreto(dataInicio: Option<string>, dataFim: Option<string>, ler: LeituraData)
    ensures FimNaoPosterior in ErrosPeriodo(dataInicio, dataFim, ler) <==>
              Presente(dataInicio) && Presente(dataFim) && DataMenorOuIgual(dataFim.value, dataInicio.value, ler)
    ensures DuracaoExcessiva in ErrosPeriodo(dataInicio, dataFim, ler) <==>
              Presente(dataInicio) && Presente(dataFim) && ler(dataInicio.value).Some? && ler(dataFim.value).Some?
              && Abs(ler(dataFim.value).value - ler(dataInicio.value).value) > 1825 * Dia
    ensures forall e :: e in ErrosPeriodo(dataInicio, dataFim, ler) ==> e == FimNaoPosterior || e == DuracaoExcessiva
  {
    if Presente(dataInicio) && Presente(dataFim) && ler(dataInicio.value).Some? && ler(dataFim.value).Some? {
      DuracaoEmDias(Abs(ler(dataFim.value).value - ler(dataInicio.value).value));
    }
  }

  /** The two presence checks on the dates. */
  function ErrosDatasObrigatorias(p: Projeto): (r: seq<ErroProjeto>)
    ensures r == [] || r == [InicioObrigatorio] || r == [FimObrigatorio] || r == [InicioObrigatorio, FimObrigatorio]
  {
    ErroDataObrigatoria(p.dataInicio, InicioObrigatorio) + ErroDataObrigatoria(p.dataFimPrevista, FimObrigatorio)
  }

  /** The checks `validarProjeto` finds failed, in the order it pushes
      their messages: at most one per text field and three about the
      dates, since a missing date switches off the checks that read it. */
  function ErrosProjeto(p: Projeto, ler: LeituraData, hoje: int): (r: seq<ErroProjeto>)
    ensures |r| <= 6
  {
    ErrosNome(p.nome) + ErrosDescricao(p.descricao) + ErrosCliente(p.clienteId) + ErrosDatasObrigatorias(p)
    + ErroInicioPassado(p.dataInicio, ler, hoje) + ErrosPeriodo(p.dataInicio, p.dataFimPrevista, ler)
  }

  /** Each check is reported at most once, and the messages come in the
      order the source runs the checks. */
  lemma ErrosProjetoEmOrdem(p: Projeto, ler: LeituraData, hoje: int)
    ensures EmOrdemProjeto(ErrosProjeto(p, ler, hoje))
  {
    OrdemDosGrupos(ErrosNome(p.nome), ErrosDescricao(p.descricao), ErrosCliente(p.clienteId),
                   ErrosDatasObrigatorias(p), ErroInicioPassado(p.dataInicio, ler, hoje),
                   ErrosPeriodo(p.dataInicio, p.dataFimPrevista, ler));
  }

  /** The groups of checks, each drawn from its own range of positions,
      follow one another in order. */
  lemma OrdemDosGrupos(nome: seq<ErroProjeto>, descricao: seq<ErroProjeto>, cliente: seq<ErroProjeto>,
                       datas: seq<ErroProjeto>, passado: seq<ErroProjeto>, periodo: seq<ErroProjeto>)
    requires nome == [] || nome == [NomeObrigatorio] || nome == [NomeCurto] || nome == [NomeLongo]
    requires descricao == [] || descricao == [DescricaoObrigatoria] || descricao == [DescricaoCurta]
             || descricao == [DescricaoLonga]
    requires cliente == [] || cliente == [ClienteObrigatorio]
    requires datas == [] || datas == [InicioObrigatorio] || datas == [FimObrigatorio]
             || datas == [InicioObrigatorio, FimObrigatorio]
    requires passado == [] || passado == [InicioMuitoAnterior]
    requires periodo == [] || periodo == [FimNaoPosterior] || periodo == [DuracaoExcessiva]
             || periodo == [FimNaoPosterior, DuracaoExcessiva]
    ensures EmOrdemProjeto(nome + descricao + cliente + datas + passado + periodo)
  {
    Alternativas(nome, [NomeObrigatorio, NomeCurto, NomeLongo], PosicaoProjeto, 0, 3);
    Alternativas(descricao, [DescricaoObrigatoria, DescricaoCurta, DescricaoLonga], PosicaoProjeto, 3, 6);
    Alternativas(cliente, [ClienteObrigatorio], PosicaoProjeto, 6, 7);
    Par(datas, InicioObrigatorio, FimObrigatorio, PosicaoProjeto, 7, 9);
    Alternativas(passado, [InicioMuitoAnterior], PosicaoProjeto, 9, 10);
    Par(periodo, FimNaoPosterior, DuracaoExcessiva, PosicaoProjeto, 10, 12);
    Anexar(nome, descricao, PosicaoProjeto, 0, 3, 6);
    Anexar(nome + descricao, cliente, PosicaoProjeto, 0, 6, 7);
    Anexar(nome + descricao + cliente, datas, PosicaoProjeto, 0, 7, 9);
    Anexar(nome + descricao + cliente + datas, passado, PosicaoProjeto, 0, 9, 10);
    Anexar(nome + descricao + cliente + datas + passado, periodo, PosicaoProjeto, 0, 10, 12);
  }

  /** The pushes of the name checks. */
  method VerificarNome(erros: seq<string>, nome: Option<string>) returns (saida: seq<string>)
    ensures saida == erros + Mapear(TextoErroProjeto, ErrosNome(nome))
  {
    saida := erros;
    if EmBranco(nome) {
      saida := saida + [TextoErroProjeto(NomeObrigatorio)];
    } else if |Trim(nome.value)| < 3 {
      saida := saida + [TextoErroProjeto(NomeCurto)];
    } else if |Trim(nome.value)| > 100 {
      saida := saida + [TextoErroProjeto(NomeLongo)];
    }
  }

  /** The pushes of the description checks. */
  method VerificarDescricao(erros: seq<string>, descricao: Option<string>) returns (saida: seq<string>)
    ensures saida == erros + Mapear(TextoErroProjeto, ErrosDescricao(descricao))
  {
    saida := erros;
    if EmBranco(descricao) {
      saida := saida + [TextoErroProjeto(DescricaoObrigatoria)];
    } else if |Trim(descricao.value)| < 10 {
      saida := saida + [TextoErroProjeto(DescricaoCurta)];
    } else if |Trim(descricao.value)| > 1000 {
      saida := saida + [TextoErroProjeto(DescricaoLonga)];
    }
  }

  /** The push of the client check. */
  method VerificarCliente(erros: seq<string>, clienteId: Option<string>) returns (saida: seq<string>)
    ensures saida == erros + Mapear(TextoErroProjeto, ErrosCliente(clienteId))
  {
    saida := erros;
    if EmBranco(clienteId) {
      saida := saida + [TextoErroProjeto(ClienteObrigatorio)];
    }
  }

  /** The pushes of the two presence checks on the dates. */
  method VerificarDatasObrigatorias(erros: seq<string>, projeto: Projeto) returns (saida: seq<string>)
    ensures saida == erros + Mapear(TextoErroProjeto, ErrosDatasObrigatorias(projeto))
  {
    saida := erros;
    ghost var feitos: seq<ErroProjeto> := [];
    if !Presente(projeto.dataInicio) {
      saida, feitos := saida + [TextoErroProjeto(InicioObrigatorio)], [InicioObrigatorio];
    }
    if !Presente(projeto.dataFimPrevista) {
      saida, feitos := saida + [TextoErroProjeto(FimObrigatorio)], feitos + [FimObrigatorio];
    }
    assert feitos == ErrosDatasObrigatorias(projeto);
    MapearElementos(TextoErroProjeto, feitos);
  }

  /** The push of the check on a start date too far in the past. */
  method VerificarInicioPassado(erros: seq<string>, dataInicio: Option<string>, ler: LeituraData, hoje: int)
    returns (saida: seq<string>)
    ensures saida == erros + Mapear(TextoErroProjeto, ErroInicioPassado(dataInicio, ler, hoje))
  {
    saida := erros;
    if Presente(dataInicio) {
      var inicio := ler(dataInicio.value);
      if inicio.Some? && inicio.value < hoje {
        var diffDays := (hoje - inicio.value) / Dia;
        if diffDays > 1 {
          saida := saida + [TextoErroProjeto(InicioMuitoAnterior)];
        }
      }
    }
  }

  /** The pushes of the two checks on the project period. */
  method VerificarPeriodo(erros: seq<string>, dataInicio: Option<string>, dataFimPrevista: Option<string>,
                          ler: LeituraData) returns (saida: seq<string>)
    ensures saida == erros + Mapear(TextoErroProjeto, ErrosPeriodo(dataInicio, dataFimPrevista, ler))
  {
    ghost var feitos: seq<ErroProjeto> := [];
    saida := erros;
    if Presente(dataInicio) && Presente(dataFimPrevista) {
      var inicio := ler(dataInicio.value);
      var fim := ler(dataFimPrevista.value);
      if inicio.Some? && fim.Some? {
        if fim.value <= inicio.value {
          MapearAnexo(TextoErroProjeto, feitos, FimNaoPosterior);
          saida, feitos := saida + [TextoErroProjeto(FimNaoPosterior)], feitos + [FimNaoPosterior];
        }
        var diffTime := Abs(fim.value - inicio.value);
        var diffDays := DiasParaCima(diffTime);
        if diffDays > 1825 {
          MapearAnexo(TextoErroProjeto, feitos, DuracaoExcessiva);
          saida, feitos := saida + [TextoErroProjeto(DuracaoExcessiva)], feitos + [DuracaoExcessiva];
        }
      }
    }
    assert saida == erros + Mapear(TextoErroProjeto, feitos);
    assert feitos == ErrosPeriodo(dataInicio, dataFimPrevista, ler);
  }

  /** `validarProjeto`: runs every check in the source's order, pushing
      one message per failed check; the result is valid exactly when no
      message was pushed. */
  method ValidarProjeto(projeto: Projeto, ler: LeituraData, hoje: int) returns (r: Resultado)
    ensures r.erros == Mapear(TextoErroProjeto, ErrosProjeto(projeto, ler, hoje))
    ensures r.valido <==> r.erros == []
  {
    var erros: seq<string> := [];
    ghost var feitos := ErrosNome(projeto.nome);
    erros := VerificarNome(erros, projeto.nome);
    assert erros == Mapear(TextoErroProjeto, feitos);

    erros := VerificarDescricao(erros, projeto.descricao);
    MapearConcat(TextoErroProjeto, feitos, ErrosDescricao(projeto.descricao));
    feitos := feitos + ErrosDescricao(projeto.descricao);

    erros := VerificarCliente(erros, projeto.clienteId);
    MapearConcat(TextoErroProjeto, feitos, ErrosCliente(projeto.clienteId));
    feitos := feitos + ErrosCliente(projeto.clienteId);

    erros := VerificarDatasObrigatorias(erros, projeto);
    MapearConcat(TextoErroProjeto, feitos, ErrosDatasObrigatorias(projeto));
    feitos := feitos + ErrosDatasObrigatorias(projeto);

    erros := VerificarInicioPassado(erros, projeto.dataInicio, ler, hoje);
    MapearConcat(TextoErroProjeto, feitos, ErroInicioPassado(projeto.dataInicio, ler, hoje));
    feitos := feitos + ErroInicioPassado(projeto.dataInicio, ler, hoje);

    erros := VerificarPeriodo(erros, projeto.dataInicio, projeto.dataFimPrevista, ler);
    MapearConcat(TextoErroProjeto, feitos, ErrosPeriodo(projeto.dataInicio, projeto.dataFimPrevista, ler));
    feitos := feitos + ErrosPeriodo(projeto.dataInicio, projeto.dataFimPrevista, ler);
    assert feitos == ErrosProjeto(projeto, ler, hoje);
    r := Resultado(|erros| == 0, erros);
  }

  // ---------------------------------------------------------------------
  // validarSubprojeto
  // ---------------------------------------------------------------------

  datatype ErroSubprojeto = SubprojetoNaoSelecionado | SubprojetoSemTarefas

  function TextoErroSubprojeto(e: ErroSubprojeto): string {
    match e
    case SubprojetoNaoSelecionado => "Subprojeto deve ser selecionado"
    case SubprojetoSemTarefas => "Subprojeto deve ter pelo menos uma tarefa"
  }

  /** The checks `validarSubprojeto` finds failed, in the order it pushes
      their messages. */
  function ErrosSubprojeto(s: Subprojeto): (r: seq<ErroSubprojeto>)
    ensures r == [] || r == [SubprojetoNaoSelecionado] || r == [SubprojetoSemTarefas]
            || r == [SubprojetoNaoSelecionado, SubprojetoSemTarefas]
  {
    (if EmBranco(s.subprojetoId) then [SubprojetoNaoSelecionado] else [])
    + (if s.tarefas.None? || |s.tarefas.value| == 0 then [SubprojetoSemTarefas] else [])
  }

  /** A sub-project must name its `subprojetoId` (blank does not count)
      and own at least one task; a missing task list counts as empty. */
  lemma ErrosSubprojetoCorreto(s: Subprojeto)
    ensures SubprojetoNaoSelecionado in ErrosSubprojeto(s) <==> Aparada(s.subprojetoId) == ""
    ensures SubprojetoSemTarefas in ErrosSubprojeto(s) <==> s.tarefas.GetOr([]) == []
    ensures ErrosSubprojeto(s) == [] <==> Aparada(s.subprojetoId) != "" && s.tarefas.GetOr([]) != []
  {
  }

  /** `validarSubprojeto`. */
  method ValidarSubprojeto(subprojeto: Subprojeto) returns (r: Resultado)
    ensures r.erros == Mapear(TextoErroSubprojeto, ErrosSubprojeto(subprojeto))
    ensures r.valido <==> r.erros == []
  {
    var erros: seq<string> := [];
    if EmBranco(subprojeto.subprojetoId) {
      erros := erros + [TextoErroSubprojeto(SubprojetoNaoSelecionado)];
    }
    if subprojeto.tarefas.None? || |subprojeto.tarefas.value| == 0 {
      erros := erros + [TextoErroSubprojeto(SubprojetoSemTarefas)];
    }
    r := Resultado(|erros| == 0, erros);
  }

  // ---------------------------------------------------------------------
  // validarTarefa
  // ---------------------------------------------------------------------

  /** The checks of `validarTarefa`, in the order the source runs them. */
  datatype ErroTarefa =
    | IdObrigatorio | FimPrevistaNaoPosterior | FimRealAnterior
    | StatusComFimReal | StatusInvalido | ObservacoesLongas

  /** The place of each check in `validarTarefa`. */
  function PosicaoTarefa(e: ErroTarefa): nat {
    match e
    case IdObrigatorio => 0
    case FimPrevistaNaoPosterior => 1
    case FimRealAnterior => 2
    case StatusComFimReal => 3
    case StatusInvalido => 4
    case ObservacoesLongas => 5
  }

  /** The message each failed check pushes, after the task prefix. */
  function TextoErroTarefa(e: ErroTarefa): string {
    match e
    case IdObrigatorio => "ID da tarefa é obrigatório"
    case FimPrevistaNaoPosterior => "Data fim prevista deve ser posterior à data de início"
    case FimRealAnterior => "Data fim real não pode ser anterior à data de início"
    case StatusComFimReal => "Tarefa com data fim real deve ter status 'Concluída' ou 'Cancelada'"
    case StatusInvalido => "Status inválido"
    case ObservacoesLongas => "Observações devem ter no máximo 500 caracteres"
  }

  const StatusValidos: seq<string> := ["NAO_INICIADA", "EM_ANDAMENTO", "CONCLUIDA", "ATRASADA", "CANCELADA"]

  /** The statuses a task with a real end date may have. */
  const StatusEncerrados: seq<string> := ["CONCLUIDA", "CANCELADA"]

  predicate EmOrdemTarefa(r: seq<ErroTarefa>) {
    Crescente(r, PosicaoTarefa)
  }

  /** The identifier check: an error exactly when the trimmed identifier
      is empty. */
  function ErroIdTarefa(t: Tarefa): (r: seq<ErroTarefa>)
    ensures r == [] || r == [IdObrigatorio]
    ensures r != [] <==> Aparada(t.tarefaId) == ""
  {
    EmBrancoAparada(t.tarefaId);
    if EmBranco(t.tarefaId) then [IdObrigatorio] else []
  }

  /** The planned-end check, which needs both dates. */
  function ErroFimPrevista(t: Tarefa, ler: LeituraData): (r: seq<ErroTarefa>)
    ensures r == [] || r == [FimPrevistaNaoPosterior]
    ensures r != [] ==> Presente(t.dataInicio) && Presente(t.dataFimPrevista)
  {
    if Presente(t.dataInicio) && Presente(t.dataFimPrevista)
       && DataMenorOuIgual(t.dataFimPrevista.value, t.dataInicio.value, ler)
    then [FimPrevistaNaoPosterior] else []
  }

  /** The two checks that run only when a real end date is given. */
  function ErrosFimReal(t: Tarefa, ler: LeituraData): (r: seq<ErroTarefa>)
    ensures r == [] || r == [FimRealAnterior] || r == [StatusComFimReal] || r == [FimRealAnterior, StatusComFimReal]
    ensures r != [] ==> Presente(t.dataFimReal)
  {
    if Presente(t.dataFimReal) then
      (if Presente(t.dataInicio) && DataMenor(t.dataFimReal.value, t.dataInicio.value, ler)
       then [FimRealAnterior] else [])
      + (if Presente(t.status) && t.status.value !in StatusEncerrados then [StatusComFimReal] else [])
    else []
  }

  /** The status check; a missing status is never wrong. */
  function ErroStatus(t: Tarefa): (r: seq<ErroTarefa>)
    ensures r == [] || r == [StatusInvalido]
    ensures r != [] ==> Presente(t.status)
  {
    if Presente(t.status) && t.status.value !in StatusValidos then [StatusInvalido] else []
  }

  /** The notes check, on the untrimmed notes. */
  function ErroObservacoes(t: Tarefa): (r: seq<ErroTarefa>)
    ensures r == [] || r == [ObservacoesLongas]
    ensures r != [] ==> t.observacoes.Some? && |t.observacoes.value| > 500
  {
    if Presente(t.observacoes) && |t.observacoes.value| > 500 then [ObservacoesLongas] else []
  }

  /** The checks `validarTarefa` finds failed, in the order it pushes their
      messages. */
  function MotivosTarefa(t: Tarefa, ler: LeituraData): (r: seq<ErroTarefa>)
    ensures r == [] <==> TarefaSemFalhas(t, ler)
    ensures |r| <= 6
  {
    ErroIdTarefa(t) + ErroFimPrevista(t, ler) + ErrosFimReal(t, ler) + ErroStatus(t) + ErroObservacoes(t)
  }

  /** A task that passes every check of `validarTarefa`. */
  predicate TarefaSemFalhas(t: Tarefa, ler: LeituraData) {
    ErroIdTarefa(t) == [] && ErroFimPrevista(t, ler) == [] && ErrosFimReal(t, ler) == []
    && ErroStatus(t) == [] && ErroObservacoes(t) == []
  }

  /** When each check fires. The real end date may equal the start; a
      missing status is never wrong, not even beside a real end date; the
      notes may have 500 characters, counted before any trimming. */
  lemma MotivosTarefaCorreto(t: Tarefa, ler: LeituraData)
    ensures IdObrigatorio in MotivosTarefa(t, ler) <==> Aparada(t.tarefaId) == ""
    ensures FimPrevistaNaoPosterior in MotivosTarefa(t, ler) <==>
              Presente(t.dataInicio) && Presente(t.dataFimPrevista)
              && DataMenorOuIgual(t.dataFimPrevista.value, t.dataInicio.value, ler)
    ensures FimRealAnterior in MotivosTarefa(t, ler) <==>
              Presente(t.dataFimReal) && Presente(t.dataInicio)
              && DataMenor(t.dataFimReal.value, t.dataInicio.value, ler)
    ensures StatusComFimReal in MotivosTarefa(t, ler) <==>
              Presente(t.dataFimReal) && Presente(t.status) && t.status.value !in StatusEncerrados
    ensures StatusInvalido in MotivosTarefa(t, ler) <==> Presente(t.status) && t.status.value !in StatusValidos
    ensures ObservacoesLongas in MotivosTarefa(t, ler) <==> t.observacoes.Some? && |t.observacoes.value| > 500
  {
    var id, fimPrevista, fimReal := ErroIdTarefa(t), ErroFimPrevista(t, ler), ErrosFimReal(t, ler);
    var status, observacoes := ErroStatus(t), ErroObservacoes(t);
    assert forall e :: e in MotivosTarefa(t, ler) <==>
      e in id || e in fimPrevista || e in fimReal || e in status || e in observacoes;
    assert IdObrigatorio in id <==> Aparada(t.tarefaId) == "";
  }

  /** Each check is reported at most once, in the source's order. */
  lemma MotivosTarefaEmOrdem(t: Tarefa, ler: LeituraData)
    ensures EmOrdemTarefa(MotivosTarefa(t, ler))
  {
    OrdemDosGruposTarefa(ErroIdTarefa(t), ErroFimPrevista(t, ler), ErrosFimReal(t, ler), ErroStatus(t),
                         ErroObservacoes(t));
  }

  lemma OrdemDosGruposTarefa(id: seq<ErroTarefa>, fimPrevista: seq<ErroTarefa>, fimReal: seq<ErroTarefa>,
                             status: seq<ErroTarefa>, observacoes: seq<ErroTarefa>)
    requires id == [] || id == [IdObrigatorio]
    requires fimPrevista == [] || fimPrevista == [FimPrevistaNaoPosterior]
    requires fimReal == [] || fimReal == [FimRealAnterior] || fimReal == [StatusComFimReal]
             || fimReal == [FimRealAnterior, StatusComFimReal]
    requires status == [] || status == [StatusInvalido]
    requires observacoes == [] || observacoes == [ObservacoesLongas]
    ensures EmOrdemTarefa(id + fimPrevista + fimReal + status + observacoes)
  {
    Alternativas(id, [IdObrigatorio], PosicaoTarefa, 0, 1);
    Alternativas(fimPrevista, [FimPrevistaNaoPosterior], PosicaoTarefa, 1, 2);
    Par(fimReal, FimRealAnterior, StatusComFimReal, PosicaoTarefa, 2, 4);
    Alternativas(status, [StatusInvalido], PosicaoTarefa, 4, 5);
    Alternativas(observacoes, [ObservacoesLongas], PosicaoTarefa, 5, 6);
    Anexar(id, fimPrevista, PosicaoTarefa, 0, 1, 2);
    Anexar(id + fimPrevista, fimReal, PosicaoTarefa, 0, 2, 4);
    Anexar(id + fimPrevista + fimReal, status, PosicaoTarefa, 0, 4, 5);
    Anexar(id + fimPrevista + fimReal + status, observacoes, PosicaoTarefa, 0, 5, 6);
  }

  /** The prefix `Tarefa ${index + 1}: ` of every task message. */
  function PrefixoTarefa(index: nat): string {
    "Tarefa " + Decimal(index + 1) + ": "
  }

  /** `xs.map(x => prefixo + x)`. */
  function Prefixar(prefixo: string, xs: seq<string>): (r: seq<string>)
    ensures |r| == |xs|
  {
    if xs == [] then [] else Prefixar(prefixo, xs[..|xs| - 1]) + [prefixo + xs[|xs| - 1]]
  }

  lemma PrefixarAnexo(prefixo: string, xs: seq<string>, x: string)
    ensures Prefixar(prefixo, xs + [x]) == Prefixar(prefixo, xs) + [prefixo + x]
  {
    assert (xs + [x])[..|xs|] == xs;
  }

  lemma {:induction false} PrefixarConcat(prefixo: string, xs: seq<string>, ys: seq<string>)
    ensures Prefixar(prefixo, xs + ys) == Prefixar(prefixo, xs) + Prefixar(prefixo, ys)
    decreases |ys|
  {
    if ys == [] {
      assert xs + ys == xs;
    } else {
      var init, last := ys[..|ys| - 1], ys[|ys| - 1];
      assert ys == init + [last];
      assert xs + ys == (xs + init) + [last];
      PrefixarAnexo(prefixo, xs + init, last);
      PrefixarAnexo(prefixo, init, last);
      PrefixarConcat(prefixo, xs, init);
    }
  }

  lemma PrefixarElementos(prefixo: string, xs: seq<string>)
    requires |xs| <= 2
    ensures Prefixar(prefixo, xs) == if xs == [] then [] else if |xs| == 1 then [prefixo + xs[0]]
                                     else [prefixo + xs[0], prefixo + xs[1]]
  {
    if |xs| == 2 {
      assert xs[..1] == [xs[0]];
    }
  }

  /** Every element of `Prefixar(prefixo, xs)` starts with `prefixo`. */
  lemma {:induction false} PrefixarComeca(prefixo: string, xs: seq<string>)
    ensures forall m :: m in Prefixar(prefixo, xs) ==> prefixo <= m
  {
    if xs != [] {
      PrefixarComeca(prefixo, xs[..|xs| - 1]);
      assert prefixo <= prefixo + xs[|xs| - 1];
    }
  }

  /** The messages of `validarTarefa(t, index)`: one per failed check, each
      the task prefix followed by the check's text. */
  function ErrosTarefa(t: Tarefa, index: nat, ler: LeituraData): (r: seq<string>)
    ensures r == [] <==> TarefaSemFalhas(t, ler)
  {
    Prefixar(PrefixoTarefa(index), Mapear(TextoErroTarefa, MotivosTarefa(t, ler)))
  }

  /** One message per failed check, every one of them beginning with the
      task prefix `Tarefa ${index + 1}: `. */
  lemma ErrosTarefaPrefixados(t: Tarefa, index: nat, ler: LeituraData)
    ensures |ErrosTarefa(t, index, ler)| == |MotivosTarefa(t, ler)|
    ensures forall m :: m in ErrosTarefa(t, index, ler) ==> PrefixoTarefa(index) <= m
  {
    PrefixarComeca(PrefixoTarefa(index), Mapear(TextoErroTarefa, MotivosTarefa(t, ler)));
  }

  lemma {:induction false} MapearPrimeiro<A, B>(f: A -> B, xs: seq<A>)
    requires xs != []
    ensures Mapear(f, xs)[0] == f(xs[0])
    decreases |xs|
  {
    if |xs| > 1 {
      MapearPrimeiro(f, xs[..|xs| - 1]);
    }
  }

  lemma {:induction false} PrefixarPrimeiro(prefixo: string, xs: seq<string>)
    requires xs != []
    ensures Prefixar(prefixo, xs)[0] == prefixo + xs[0]
    decreases |xs|
  {
    if |xs| > 1 {
      PrefixarPrimeiro(prefixo, xs[..|xs| - 1]);
    }
  }

  /** The first message of a failed task is its prefix followed by the
      text of the first failed check. */
  lemma ErrosTarefaPrimeiro(t: Tarefa, index: nat, ler: LeituraData)
    requires !TarefaSemFalhas(t, ler)
    ensures MotivosTarefa(t, ler) != []
    ensures ErrosTarefa(t, index, ler)[0] == PrefixoTarefa(index) + TextoErroTarefa(MotivosTarefa(t, ler)[0])
  {
    var motivos := MotivosTarefa(t, ler);
    MapearPrimeiro(TextoErroTarefa, motivos);
    PrefixarPrimeiro(PrefixoTarefa(index), Mapear(TextoErroTarefa, motivos));
  }

  /** The message list after one block of `validarTarefa` pushed the
      messages of `motivos`. */
  function Empilhado(erros: seq<string>, index: nat, motivos: seq<ErroTarefa>): seq<string> {
    erros + Prefixar(PrefixoTarefa(index), Mapear(TextoErroTarefa, motivos))
  }

  lemma EmpilhadoUm(erros: seq<string>, index: nat, e: ErroTarefa)
    ensures Empilhado(erros, index, [e]) == erros + [PrefixoTarefa(index) + TextoErroTarefa(e)]
  {
    MapearAnexo(TextoErroTarefa, [], e);
    assert [] + [e] == [e];
    PrefixarAnexo(PrefixoTarefa(index), [], TextoErroTarefa(e));
  }

  lemma EmpilhadoConcat(erros: seq<string>, index: nat, a: seq<ErroTarefa>, b: seq<ErroTarefa>)
    ensures Empilhado(Empilhado(erros, index, a), index, b) == Empilhado(erros, index, a + b)
  {
    MapearConcat(TextoErroTarefa, a, b);
    PrefixarConcat(PrefixoTarefa(index), Mapear(TextoErroTarefa, a), Mapear(TextoErroTarefa, b));
  }

  method VerificarIdTarefa(erros: seq<string>, tarefa: Tarefa, index: nat) returns (saida: seq<string>)
    ensures saida == Empilhado(erros, index, ErroIdTarefa(tarefa))
  {
    saida := erros;
    if EmBranco(tarefa.tarefaId) {
      EmpilhadoUm(erros, index, IdObrigatorio);
      saida := saida + [PrefixoTarefa(index) + TextoErroTarefa(IdObrigatorio)];
    } else {
      assert Prefixar(PrefixoTarefa(index), Mapear(TextoErroTarefa, [])) == [];
    }
  }

  method VerificarFimPrevista(erros: seq<string>, tarefa: Tarefa, index: nat, ler: LeituraData)
    returns (saida: seq<string>)
    ensures saida == Empilhado(erros, index, ErroFimPrevista(tarefa, ler))
  {
    saida := erros;
    if Presente(tarefa.dataInicio) && Presente(tarefa.dataFimPrevista) {
      if DataMenorOuIgual(tarefa.dataFimPrevista.value, tarefa.dataInicio.value, ler) {
        EmpilhadoUm(erros, index, FimPrevistaNaoPosterior);
        saida := saida + [PrefixoTarefa(index) + TextoErroTarefa(FimPrevistaNaoPosterior)];
      }
    }
    if saida == erros {
      assert Prefixar(PrefixoTarefa(index), Mapear(TextoErroTarefa, [])) == [];
    }
  }

  method VerificarFimReal(erros: seq<string>, tarefa: Tarefa, index: nat, ler: LeituraData)
    returns (saida: seq<string>)
    ensures saida == Empilhado(erros, index, ErrosFimReal(tarefa, ler))
  {
    saida := erros;
    ghost var feitos: seq<ErroTarefa> := [];
    if Presente(tarefa.dataFimReal) {
      if Presente(tarefa.dataInicio) {
        if DataMenor(tarefa.dataFimReal.value, tarefa.dataInicio.value, ler) {
          saida := saida + [PrefixoTarefa(index) + TextoErroTarefa(FimRealAnterior)];
          feitos := [FimRealAnterior];
        }
      }
      if Presente(tarefa.status) && tarefa.status.value !in StatusEncerrados {
        saida := saida + [PrefixoTarefa(index) + TextoErroTarefa(StatusComFimReal)];
        feitos := feitos + [StatusComFimReal];
      }
    }
    assert feitos == ErrosFimReal(tarefa, ler);
    ghost var mensagens := Mapear(TextoErroTarefa, feitos);
    MapearElementos(TextoErroTarefa, feitos);
    PrefixarElementos(PrefixoTarefa(index), mensagens);
  }

  method VerificarStatus(erros: seq<string>, tarefa: Tarefa, index: nat) returns (saida: seq<string>)
    ensures saida == Empilhado(erros, index, ErroStatus(tarefa))
  {
    saida := erros;
    if Presente(tarefa.status) && tarefa.status.value !in StatusValidos {
      EmpilhadoUm(erros, index, StatusInvalido);
      saida := saida + [PrefixoTarefa(index) + TextoErroTarefa(StatusInvalido)];
    } else {
      assert Prefixar(PrefixoTarefa(index), Mapear(TextoErroTarefa, [])) == [];
    }
  }

  method VerificarObservacoes(erros: seq<string>, tarefa: Tarefa, index: nat) returns (saida: seq<string>)
    ensures saida == Empilhado(erros, index, ErroObservacoes(tarefa))
  {
    saida := erros;
    if Presente(tarefa.observacoes) && |tarefa.observacoes.value| > 500 {
      EmpilhadoUm(erros, index, ObservacoesLongas);
      saida := saida + [PrefixoTarefa(index) + TextoErroTarefa(ObservacoesLongas)];
    } else {
      assert Prefixar(PrefixoTarefa(index), Mapear(TextoErroTarefa, [])) == [];
    }
  }

  /** `validarTarefa`: one message per failed check, in the source's order;
      the result is valid exactly when no message was pushed. */
  method ValidarTarefa(tarefa: Tarefa, index: nat, ler: LeituraData) returns (r: Resultado)
    ensures r.erros == ErrosTarefa(tarefa, index, ler)
    ensures r.valido <==> r.erros == []
  {
    var erros: seq<string> := [];
    erros := VerificarIdTarefa(erros, tarefa, index);
    ghost var feitos := ErroIdTarefa(tarefa);
    assert erros == Empilhado([], index, feitos);

    erros := VerificarFimPrevista(erros, tarefa, index, ler);
    EmpilhadoConcat([], index, feitos, ErroFimPrevista(tarefa, ler));
    feitos := feitos + ErroFimPrevista(tarefa, ler);

    erros := VerificarFimReal(erros, tarefa, index, ler);
    EmpilhadoConcat([], index, feitos, ErrosFimReal(tarefa, ler));
    feitos := feitos + ErrosFimReal(tarefa, ler);

    erros := VerificarStatus(erros, tarefa, index);
    EmpilhadoConcat([], index, feitos, ErroStatus(tarefa));
    feitos := feitos + ErroStatus(tarefa);

    erros := VerificarObservacoes(erros, tarefa, index);
    EmpilhadoConcat([], index, feitos, ErroObservacoes(tarefa));
    feitos := feitos + ErroObservacoes(tarefa);

    assert feitos == MotivosTarefa(tarefa, ler);
    assert [] + Prefixar(PrefixoTarefa(index), Mapear(TextoErroTarefa, feitos))
           == Prefixar(PrefixoTarefa(index), Mapear(TextoErroTarefa, feitos));
    r := Resultado(|erros| == 0, erros);
  }
}
