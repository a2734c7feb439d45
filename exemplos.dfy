/** Concrete forms filled in, and what the validators report for them. */
module Exemplos {
  import opened Opcional
  import opened Texto
  import opened Entidades
  import opened Regras
  import opened Completo

  /** A form with a two-letter name, a short description and every other
      field empty gets five messages, in the order of the fields; the date
      checks need dates to run. */
  lemma ProjetoCincoErros(x: Extra, ler: LeituraData, hoje: int)
    ensures ErrosProjeto(Projeto(Some("AB"), Some("short"), Some(""), Some(""), Some(""), None, x), ler, hoje)
            == [NomeCurto, DescricaoCurta, ClienteObrigatorio, InicioObrigatorio, FimObrigatorio]
  {
    assert Trim("AB") == "AB" by {
      TrimCorreto("AB");
    }
    assert Trim("short") == "short" by {
      TrimCorreto("short");
    }
  }

  /** Six messages, the most a project can get: a short name and
      description, no client, a start exactly two days before today (the
      least that fires) and a planned end
      more than five years before the start. */
  lemma ProjetoSeisErros(x: Extra, ler: LeituraData, hoje: int)
    requires ler("2024-01-10") == Some(0) && ler("2018-07-01") == Some(-2019 * Dia) && hoje == 2 * Dia
    ensures ErrosProjeto(Projeto(Some("AB"), Some("short"), Some(""), Some("2024-01-10"), Some("2018-07-01"), None, x),
                         ler, hoje)
            == [NomeCurto, DescricaoCurta, ClienteObrigatorio, InicioMuitoAnterior, FimNaoPosterior, DuracaoExcessiva]
  {
    var p := Projeto(Some("AB"), Some("short"), Some(""), Some("2024-01-10"), Some("2018-07-01"), None, x);
    assert ErrosNome(p.nome) == [NomeCurto] by {
      TrimCorreto("AB");
    }
    assert ErrosDescricao(p.descricao) == [DescricaoCurta] by {
      TrimCorreto("short");
    }
    assert ErrosDatasObrigatorias(p) == [];
    assert ErroInicioPassado(p.dataInicio, ler, hoje) == [InicioMuitoAnterior];
    assert ErrosPeriodo(p.dataInicio, p.dataFimPrevista, ler) == [FimNaoPosterior, DuracaoExcessiva] by {
      DuracaoEmDias(2019 * Dia);
    }
  }

  /** A named sub-project with one task passes its own checks, whatever
      the task holds. */
  lemma SubprojetoValido(t: Tarefa, x: Extra)
    ensures ErrosSubprojeto(Subprojeto(Some("S1"), Some([t]), x)) == []
  {
    assert Trim("S1") == "S1" by {
      TrimCorreto("S1");
    }
  }

  /** A task still in progress that already has a real end date is refused
      for its status alone; the real end falls inside the period. */
  lemma TarefaEmAndamentoComFimReal(x: Extra, ler: LeituraData)
    requires ler("2024-01-10") == Some(0)
    requires ler("2024-02-10") == Some(31 * Dia)
    requires ler("2024-02-01") == Some(22 * Dia)
    ensures MotivosTarefa(Tarefa(Some("T1"), Some("2024-01-10"), Some("2024-02-10"), Some("2024-02-01"),
                                 Some("EM_ANDAMENTO"), None, x), ler)
            == [StatusComFimReal]
  {
    var t := Tarefa(Some("T1"), Some("2024-01-10"), Some("2024-02-10"), Some("2024-02-01"),
                    Some("EM_ANDAMENTO"), None, x);
    assert Trim("T1") == "T1" by {
      TrimCorreto("T1");
    }
    assert "EM_ANDAMENTO" in StatusValidos;
    assert ErroIdTarefa(t) == [];
  }

  /** A task in progress with a real end date and no other date gets
      exactly one message, spelled out in full as the template literal's
      pieces. */
  lemma TarefaEmAndamentoMensagem(x: Extra, ler: LeituraData)
    ensures ErrosTarefa(Tarefa(Some("T1"), None, None, Some("2024-01-01"), Some("EM_ANDAMENTO"), None, x), 0, ler)
            == ["Tarefa " + "1" + ": " + "Tarefa com data fim real deve ter status 'Concluída' ou 'Cancelada'"]
  {
    var t := Tarefa(Some("T1"), None, None, Some("2024-01-01"), Some("EM_ANDAMENTO"), None, x);
    var texto := TextoErroTarefa(StatusComFimReal);
    assert MotivosTarefa(t, ler) == [StatusComFimReal] by {
      assert ErroIdTarefa(t) == [] by {
        TrimCorreto("T1");
      }
      assert ErrosFimReal(t, ler) == [StatusComFimReal];
      assert ErroStatus(t) == [] by {
        assert "EM_ANDAMENTO" in StatusValidos;
      }
    }
    assert Mapear(TextoErroTarefa, [StatusComFimReal]) == [texto] by {
      MapearElementos(TextoErroTarefa, [StatusComFimReal]);
    }
    assert PrefixoTarefa(0) == "Tarefa " + "1" + ": " by {
      assert Decimal(1) == "1";
    }
    PrefixarElementos(PrefixoTarefa(0), [texto]);
  }

  /** A real end on the start date itself is accepted, and so is a closed
      status; the planned end must still come later. */
  lemma TarefaConcluidaNoInicio(x: Extra, ler: LeituraData)
    requires ler("2024-01-10") == Some(0)
    ensures MotivosTarefa(Tarefa(Some("T1"), Some("2024-01-10"), Some("2024-01-10"), Some("2024-01-10"),
                                 Some("CONCLUIDA"), None, x), ler)
            == [FimPrevistaNaoPosterior]
  {
    var t := Tarefa(Some("T1"), Some("2024-01-10"), Some("2024-01-10"), Some("2024-01-10"),
                    Some("CONCLUIDA"), None, x);
    assert Trim("T1") == "T1" by {
      TrimCorreto("T1");
    }
    assert "CONCLUIDA" in StatusEncerrados && "CONCLUIDA" in StatusValidos;
    assert ErroIdTarefa(t) == [];
  }

  /** A sub-project that names itself but has no tasks gets exactly one
      message: its label, counted from 1, and the one check it fails. */
  lemma SubprojetoSemTarefasMensagem(x: Extra, ler: LeituraData)
    ensures RotuloSubprojeto(0) == "Subprojeto 1"
    ensures MensagensDoSubprojeto(0, Subprojeto(Some("S1"), Some([]), x), ler)
            == [RotuloSubprojeto(0) + ": " + TextoErroSubprojeto(SubprojetoSemTarefas)]
  {
    var s := Subprojeto(Some("S1"), Some([]), x);
    assert Trim("S1") == "S1" by {
      TrimCorreto("S1");
    }
    assert ErrosSubprojeto(s) == [SubprojetoSemTarefas];
    MapearElementos(TextoErroSubprojeto, [SubprojetoSemTarefas]);
    assert Decimal(1) == "1";
    assert MensagensDoSubprojeto(0, s, ler) == MensagemSubprojeto(0, s) + [];
  }
}
