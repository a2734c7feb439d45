# Validation and sanitization of projects, CPF, CNPJ and e-mail

This project models `src/utils/validacoes.js` of a Vue administrative front end in Dafny. That file validates the forms the application sends. The model covers:

- `validarEmail`, a shape test by regular expression.
- `validarCPF` and `validarCNPJ`. They strip the non-digits, then check the two modulo-11 check digits of the Brazilian individual and company taxpayer numbers.
- `validarProjeto`, `validarSubprojeto` and `validarTarefa`. Each pushes Portuguese messages onto a local array, check by check, and returns `{ valido, erros }`.
- `validarProjetoCompleto`. It returns the project's own result when that fails. Otherwise it visits every sub-project and every task with nested `forEach` loops and pushes one joined message per failed sub-project or task, labelled with its position.
- `sanitizarProjeto`, a copy of the project tree. Text fields are trimmed, dates and lists get empty defaults, and a missing task status becomes `"NAO_INICIADA"`.

The model has these modules:

- `Opcional`: `Option`, for fields that may be missing.
- `Texto`: the JavaScript string built-ins used here. These are `trim` over the exact ECMAScript whitespace set, the `\d` filter, `${n}` rendering and `join`.
- `Entidades`: the records. Fields no check reads are kept as an opaque `extra` value that the object spread copies through. Dates are strings read by a caller-supplied `LeituraData` function, where `None` stands for an Invalid Date (NaN).
- `Documentos`: the e-mail test, and the CPF and CNPJ loops. The loops are methods proved equal to functions over digit strings.
- `Regras`: the three rule validators. Each one is a method that pushes messages, as the source does, and is proved equal to a function listing the failed checks in source order.
- `Completo`: `validarProjetoCompleto`. Each `forEach` is a loop method and each callback is a method. All are proved against the function `ErrosCompletos`.
- `Sanitizacao`: `sanitizarProjeto` as functions, with the sanitized normal form and its interaction with the validators.
- `Exemplos`: concrete forms and the messages they get.

Four behaviours of the code are easy to miss; the model proves each one:

- Changing one digit does not always invalidate a CPF or a CNPJ, because each check digit rule maps two different remainders to 0. `10000000604` and `00000000604` are both valid CPFs (`Documentos.CpfMutacaoNaoDetectada`). In the first sum the change moves the remainder between the two that give 0. In the second sum the first digit weighs 11, a multiple of 11, so the change does not move the remainder at all. `00000000003700` and `20000000003700` are both valid CNPJs (`Documentos.CnpjMutacaoNaoDetectada`): raising the first digit by 2 moves the two remainders from 1 to 0 and from 0 to 1.
- Only the CPF check refuses repeated digits: `"00000000000000"` passes as a CNPJ (`Documentos.CnpjZerosAceito`).
- Sanitizing can change a task's verdict. A task with a real end date and no status fails after sanitizing (`Sanitizacao.StatusPadraoComFimReal`). Notes whose trimmed value fits 500 characters pass after sanitizing (`Sanitizacao.ObservacoesAparadas`). The project and sub-project checks give the same messages before and after.
- The past-start check floors the elapsed days and compares the result with 1. So a start is refused only when it lies two full days or more before today's midnight (`Regras.ErroInicioPassado`).

## Model

| member | source | states |
|---|---|---|
| Texto.TrimCorreto | src/utils/validacoes.js:61 | `trim` gives a string no longer than its input, with no whitespace at either end; it is empty exactly when the input is all whitespace, and leaves a trimmed string unchanged |
| Texto.Trim | src/utils/validacoes.js:61 | `trim` never lengthens its input and leaves no whitespace at either end |
| Texto.TrimIdempotente | src/utils/validacoes.js:61 | trimming twice gives what trimming once gives |
| Texto.EhEspaco | src/utils/validacoes.js:2 | the code points of `\s` and of `trim`: the ECMAScript WhiteSpace and LineTerminator characters |
| Texto.TrimInicio | src/utils/validacoes.js:61 | the first half of `trim`: drops the longest whitespace prefix |
| Texto.TrimFim | src/utils/validacoes.js:61 | the second half of `trim`: drops the longest whitespace suffix |
| Texto.TrimInicioCorreto | src/utils/validacoes.js:61 | the first half of `trim` leaves a suffix of its input that does not start with whitespace, and everything it drops is whitespace |
| Texto.TrimFimCorreto | src/utils/validacoes.js:61 | the second half of `trim` leaves a prefix of its input that does not end with whitespace, and everything it drops is whitespace |
| Texto.SoDigitos | src/utils/validacoes.js:7 | `replace(/[^\d]+/g, "")` leaves only digits, is no longer than its input and leaves a digit string unchanged |
| Texto.SoDigitosConcat | src/utils/validacoes.js:7 | removing the non-digits of a concatenation removes them from each part; this fixes the order of the kept digits |
| Texto.Decimal | src/utils/validacoes.js:152 | `${n}` inside a template literal: a non-empty string of decimal digits with no leading zero unless `n` is 0 |
| Texto.DecimalIdaVolta | src/utils/validacoes.js:152 | the rendering of `index + 1` in a message reads back as that number |
| Texto.DecimalInjetivo | src/utils/validacoes.js:152 | different positions get different labels |
| Texto.Juntar | src/utils/validacoes.js:234 | `join(", ")` of nothing is empty, of one message is that message, and otherwise starts with the first message |
| Texto.Val | src/utils/validacoes.js:12-21 | `parseInt` of one digit character: its value, below 10 |
| Documentos.ValidarEmail | src/utils/validacoes.js:1-4 | an accepted address has at least five characters and begins and ends with a character of `[^\s@]` |
| Documentos.ClasseEmail | src/utils/validacoes.js:2 | the class `[^\s@]`: neither whitespace nor `@` |
| Documentos.Corrida | src/utils/validacoes.js:2 | `[^\s@]+`: a non-empty run of that class |
| Documentos.DominioEmail | src/utils/validacoes.js:2 | `[^\s@]+\.[^\s@]+`: a run of the class with a `.` that is neither first nor last |
| Documentos.CasaPadraoEmail | src/utils/validacoes.js:2 | the anchored pattern as a split of the whole string: run, `@`, run, `.`, run |
| Documentos.ValidarEmailCorreto | src/utils/validacoes.js:1-4 | the scan accepts a string exactly when it matches `^[^\s@]+@[^\s@]+\.[^\s@]+$`: a non-empty run, `@`, then a run with an inner `.`, no whitespace and no second `@` |
| Documentos.EmailSemEspacos | src/utils/validacoes.js:2 | a whitespace character anywhere refuses the address |
| Documentos.EmailUmaArroba | src/utils/validacoes.js:2 | a second `@` anywhere refuses the address |
| Documentos.EmailExemploValido | src/utils/validacoes.js:1-4 | `a@b.co` is accepted |
| Documentos.EmailExemplosInvalidos | src/utils/validacoes.js:1-4 | `a@b`, `a@.c`, `a b@c.d` and `a@@b.c` are refused |
| Documentos.ValidarCPF | src/utils/validacoes.js:6-22 | the two weighted-sum loops return true exactly when the digits of the input form a valid CPF: 11 digits, not all equal, with both check digits right |
| Documentos.Repetido | src/utils/validacoes.js:8 | `/^(\d)\1+$/`: at least two characters, the first a digit and every one equal to it |
| Documentos.SomaCpf | src/utils/validacoes.js:12 | the sums of lines 12 and 18: each digit times its weight, the first weighing `peso` and each next one 1 less |
| Documentos.CpfValido | src/utils/validacoes.js:8-21 | a valid CPF: 11 digits, not all equal, the tenth the check digit of the first nine and the eleventh that of the first ten |
| Documentos.DigitoCpf | src/utils/validacoes.js:13-14 | the check digit `(soma * 10) % 11`, with 10 read as 0, is a digit |
| Documentos.SomaCpfPrimeiro | src/utils/validacoes.js:12 | the first CPF sum weighs the nine digits 10 down to 2 |
| Documentos.SomaCpfSegundo | src/utils/validacoes.js:18 | the second CPF sum weighs the ten digits 11 down to 2 |
| Documentos.CpfRepetidoRecusado | src/utils/validacoes.js:8 | eleven equal digits are refused |
| Documentos.CpfDigitoVerificadorAlterado | src/utils/validacoes.js:15-21 | changing either check digit of a valid CPF makes it invalid |
| Documentos.CpfExemplo | src/utils/validacoes.js:6-22 | `52998224725` is a valid CPF |
| Documentos.CpfMutacaoNaoDetectada | src/utils/validacoes.js:12-21 | `10000000604` and `00000000604` differ only in the first digit and are both valid |
| Documentos.ValidarCNPJ | src/utils/validacoes.js:24-54 | the method returns true exactly when the digits of the input form a valid CNPJ: 14 digits with both check digits right |
| Documentos.SomaCnpjDesde | src/utils/validacoes.js:31-37 | the sum from position `k` on, each digit times its cycling weight |
| Documentos.SomaCnpj | src/utils/validacoes.js:31-37 | the sum of lines 31-37 and 42-48 over the first 12 or 13 digits |
| Documentos.CnpjValido | src/utils/validacoes.js:26-53 | a valid CNPJ: 14 digits, the thirteenth the check digit of the first twelve and the fourteenth that of the first thirteen |
| Documentos.SomaPonderadaCnpj | src/utils/validacoes.js:31-37 | the loop with the cycling weight `pos` computes the weighted sum over the first 12 or 13 digits |
| Documentos.PesoCnpj | src/utils/validacoes.js:32-36 | every CNPJ weight lies between 2 and 9 |
| Documentos.PesoCnpjSeguinte | src/utils/validacoes.js:35-36 | each next weight is one less, wrapping from 2 back to 9 |
| Documentos.SomaCnpjPrimeiro | src/utils/validacoes.js:28-37 | the first CNPJ sum uses the weights 5,4,3,2,9,8,7,6,5,4,3,2 |
| Documentos.SomaCnpjSegundo | src/utils/validacoes.js:42-50 | the second CNPJ sum uses the weights 6,5,4,3,2,9,8,7,6,5,4,3,2 |
| Documentos.DigitoCnpj | src/utils/validacoes.js:39 | the check digit `soma % 11 < 2 ? 0 : 11 - soma % 11` is a digit |
| Documentos.DigitoCpfIgualCnpj | src/utils/validacoes.js:13-14 | the CPF rule on a sum gives the same digit as the CNPJ rule of line 39 |
| Documentos.CnpjDigitoVerificadorAlterado | src/utils/validacoes.js:40-53 | changing either check digit of a valid CNPJ makes it invalid |
| Documentos.CnpjExemplo | src/utils/validacoes.js:24-54 | `11222333000181` is a valid CNPJ |
| Documentos.CnpjZerosAceito | src/utils/validacoes.js:26 | `00000000000000` is accepted: there is no repeated-digit test |
| Documentos.CnpjMutacaoNaoDetectada | src/utils/validacoes.js:31-53 | `00000000003700` and `20000000003700` differ only in the first digit and are both valid |
| Entidades.DiasParaCima | src/utils/validacoes.js:117 | `Math.ceil(ms / day)` is the least number of days covering `ms` |
| Entidades.Dia | src/utils/validacoes.js:99 | the milliseconds in a day, `1000 * 60 * 60 * 24`, as at lines 99 and 117 |
| Entidades.Abs | src/utils/validacoes.js:116 | `Math.abs`: the number or its negation, never negative |
| Entidades.Presente | src/utils/validacoes.js:84 | the truthiness of a string field: present and not empty |
| Entidades.DataMenor | src/utils/validacoes.js:172-175 | `new Date(a) < new Date(b)`: both dates readable and the first earlier; false when either is an Invalid Date |
| Entidades.DataMenorOuIgual | src/utils/validacoes.js:108-111 | `new Date(a) <= new Date(b)`, as at lines 111 and 160; false when either is an Invalid Date |
| Regras.EmBrancoAparada | src/utils/validacoes.js:61 | `!campo \|\| campo.trim().length === 0` holds exactly when the trimmed value is empty |
| Regras.EmBranco | src/utils/validacoes.js:61 | `!campo \|\| campo.trim().length === 0`, the blank test of lines 61, 70, 79, 134 and 151 |
| Regras.Aparada | src/utils/validacoes.js:61 | the trimmed value of a text field, empty when missing |
| Regras.TextoErroProjeto | src/utils/validacoes.js:60-123 | the twelve project messages, character for character |
| Regras.ErrosNome | src/utils/validacoes.js:60-67 | the name gets at most one error |
| Regras.ErrosNomeCorreto | src/utils/validacoes.js:60-67 | the name passes exactly when its trimmed length is 3 to 100; each error says which bound fails |
| Regras.ErrosDescricao | src/utils/validacoes.js:69-76 | the description gets at most one error |
| Regras.ErrosDescricaoCorreto | src/utils/validacoes.js:69-76 | the description passes exactly when its trimmed length is 10 to 1000; each error says which bound fails |
| Regras.ErrosCliente | src/utils/validacoes.js:78-81 | the client gets at most its one error |
| Regras.ErrosClienteCorreto | src/utils/validacoes.js:78-81 | the client passes exactly when its trimmed identifier is not empty |
| Regras.ErroDataObrigatoria | src/utils/validacoes.js:84-90 | a date gets an error exactly when it is missing or empty |
| Regras.ErrosDatasObrigatorias | src/utils/validacoes.js:83-90 | the two date errors come in start, end order |
| Regras.ErroInicioPassado | src/utils/validacoes.js:92-104 | the past-start error fires exactly when the start is readable and lies two full days or more before today's midnight |
| Regras.DuracaoEmDias | src/utils/validacoes.js:116-119 | `Math.ceil(d / day) > 1825` holds exactly when `d > 1825` days |
| Regras.ErrosPeriodo | src/utils/validacoes.js:106-123 | the period check gives nothing, the order error, the length error, or both in that order |
| Regras.ErrosPeriodoCorreto | src/utils/validacoes.js:106-123 | with both dates present and readable, the order error fires exactly when the end is not after the start; the length error fires exactly when the distance, reversed or not, exceeds 1825 days; otherwise neither fires |
| Regras.ErrosProjeto | src/utils/validacoes.js:57-123 | a project gets at most six messages: one per text field and three about the dates, since a missing date switches off the checks that read it |
| Regras.ErrosProjetoEmOrdem | src/utils/validacoes.js:57-123 | each check is reported at most once, in the order the source runs them |
| Regras.OrdemDosGrupos | src/utils/validacoes.js:60-123 | the groups of checks, concatenated in source order, keep that order |
| Regras.VerificarNome | src/utils/validacoes.js:60-67 | the name block pushes exactly the name's messages |
| Regras.VerificarDescricao | src/utils/validacoes.js:69-76 | the description block pushes exactly the description's messages |
| Regras.VerificarCliente | src/utils/validacoes.js:78-81 | the client block pushes exactly the client's message |
| Regras.VerificarDatasObrigatorias | src/utils/validacoes.js:83-90 | the date blocks push exactly the missing-date messages |
| Regras.VerificarInicioPassado | src/utils/validacoes.js:92-104 | the past-start block pushes exactly its message when it fires |
| Regras.VerificarPeriodo | src/utils/validacoes.js:106-123 | the period block pushes exactly the period messages |
| Regras.ValidarProjeto | src/utils/validacoes.js:57-129 | `validarProjeto` returns the messages of the failed checks in source order, and is valid exactly when there are none |
| Regras.Mapear | src/utils/validacoes.js:268 | `xs.map(f)`, as at lines 268 and 272: one output per element, of the same length, in order |
| Regras.MapearElemento | src/utils/validacoes.js:268 | the `k`-th element of `xs.map(f)` is `f(xs[k])`, so the outputs keep the order of the inputs |
| Regras.ErrosSubprojeto | src/utils/validacoes.js:131-146 | a sub-project gets at most its two errors, in source order |
| Regras.ErrosSubprojetoCorreto | src/utils/validacoes.js:134-139 | a sub-project fails selection exactly when its trimmed identifier is empty, and fails the task check exactly when its list is missing or empty |
| Regras.ValidarSubprojeto | src/utils/validacoes.js:131-146 | `validarSubprojeto` returns those messages and is valid exactly when there are none |
| Regras.TextoErroSubprojeto | src/utils/validacoes.js:134-139 | the two sub-project messages, character for character |
| Regras.TextoErroTarefa | src/utils/validacoes.js:151-211 | the six task messages after their prefix, character for character |
| Regras.PrefixoTarefa | src/utils/validacoes.js:152 | the template prefix `Tarefa ${index + 1}: ` of every task message |
| Regras.MotivosTarefaCorreto | src/utils/validacoes.js:151-211 | when each task check fires: a blank identifier; a planned end not after the start; a real end strictly before the start; a real end beside a set status other than CONCLUIDA or CANCELADA; a set status outside the five; notes longer than 500 characters, untrimmed |
| Regras.ErroIdTarefa | src/utils/validacoes.js:151-153 | the identifier check gives at most its one error, exactly when the trimmed identifier is empty |
| Regras.ErroFimPrevista | src/utils/validacoes.js:156-167 | the planned-end check gives at most its one error, and only when both dates are set |
| Regras.ErrosFimReal | src/utils/validacoes.js:170-192 | the real-end block gives nothing, the early-end error, the status error, or both in that order, and only when a real end date is set |
| Regras.ErroStatus | src/utils/validacoes.js:195-204 | the status check gives at most its one error, and never for a missing status |
| Regras.StatusValidos | src/utils/validacoes.js:195-201 | the five valid statuses, in the order of the source's list |
| Regras.StatusEncerrados | src/utils/validacoes.js:185 | the two statuses a task with a real end date may have: `CONCLUIDA` and `CANCELADA` |
| Regras.ErroObservacoes | src/utils/validacoes.js:207-211 | the notes check gives at most its one error, and only for notes over 500 characters |
| Regras.MotivosTarefa | src/utils/validacoes.js:151-211 | a task fails no check exactly when every block passes, and fails at most six |
| Regras.MotivosTarefaEmOrdem | src/utils/validacoes.js:151-211 | each task check is reported at most once, in the order the source runs them |
| Regras.OrdemDosGruposTarefa | src/utils/validacoes.js:151-211 | the task's blocks, concatenated in source order, keep that order |
| Regras.ErrosTarefa | src/utils/validacoes.js:148-217 | a task gets no message exactly when it passes every check |
| Regras.ErrosTarefaPrefixados | src/utils/validacoes.js:152-209 | a task gets one message per failed check, each starting with `Tarefa ${index + 1}: ` |
| Regras.ErrosTarefaPrimeiro | src/utils/validacoes.js:151-211 | the first message of a failed task is its prefix and the text of its first failed check |
| Regras.VerificarIdTarefa | src/utils/validacoes.js:151-153 | the identifier block pushes exactly its prefixed message when it fires |
| Regras.VerificarFimPrevista | src/utils/validacoes.js:156-167 | the planned-end block pushes exactly its prefixed message when it fires |
| Regras.VerificarFimReal | src/utils/validacoes.js:170-192 | the real-end block pushes exactly its prefixed messages, in order |
| Regras.VerificarStatus | src/utils/validacoes.js:195-204 | the status block pushes exactly its prefixed message when it fires |
| Regras.VerificarObservacoes | src/utils/validacoes.js:207-211 | the notes block pushes exactly its prefixed message when it fires |
| Regras.ValidarTarefa | src/utils/validacoes.js:148-217 | `validarTarefa` returns the prefixed messages of the failed checks in source order, and is valid exactly when there are none |
| Completo.VisitarTarefa | src/utils/validacoes.js:240-246 | the inner callback pushes exactly the task's joined message when the task fails, and nothing otherwise |
| Completo.VisitarTarefas | src/utils/validacoes.js:239-248 | the inner `forEach` pushes the messages of the tasks in order |
| Completo.VisitarSubprojeto | src/utils/validacoes.js:230-249 | the outer callback pushes the sub-project's own message, then its tasks' messages |
| Completo.VisitarSubprojetos | src/utils/validacoes.js:229-250 | the outer `forEach` pushes the messages of the sub-projects in order |
| Completo.ValidarProjetoCompleto | src/utils/validacoes.js:219-256 | the result's messages are `ErrosCompletos`: the project's own when it fails, otherwise the sub-project and task messages in order; it is valid exactly when there are none |
| Completo.RotuloSubprojeto | src/utils/validacoes.js:234 | the label `Subprojeto ${subIndex + 1}` of lines 234 and 244 |
| Completo.Acumular | src/utils/validacoes.js:229-250 | what a `forEach` has pushed after visiting the first `n` elements: each visit's output in index order |
| Completo.MensagensDoSubprojeto | src/utils/validacoes.js:230-249 | what the outer callback pushes for one sub-project: its own message, then one per failed task |
| Completo.ErrosCompletos | src/utils/validacoes.js:219-256 | a failed project gets one message per failed project check; a project without sub-projects gets none beyond those |
| Completo.MensagemSubprojeto | src/utils/validacoes.js:231-236 | a sub-project gets at most one message of its own, exactly when its own checks fail |
| Completo.MensagemTarefa | src/utils/validacoes.js:240-246 | a task gets at most one joined message, exactly when it fails a check |
| Completo.ProjetoInvalidoPrevalece | src/utils/validacoes.js:220-224 | when the project checks fail, the result is theirs, whatever the sub-projects hold |
| Completo.ProjetoCompletoValido | src/utils/validacoes.js:219-256 | a project passes exactly when its own checks pass and every sub-project and every task passes its own; a project without sub-projects needs only its own checks |
| Completo.MensagensDoSubprojetoVazias | src/utils/validacoes.js:230-249 | a sub-project adds nothing exactly when it and all its tasks pass, and at most one message plus one per task otherwise |
| Completo.ErrosCompletosLimitados | src/utils/validacoes.js:229-250 | a valid project gets at most one message per sub-project plus one per task |
| Completo.SubprojetoUnicoSemTarefas | src/utils/validacoes.js:229-250 | a valid project whose one sub-project has no tasks gets exactly one message: that sub-project's own, which reports the missing tasks |
| Completo.MensagemSubprojetoForma | src/utils/validacoes.js:232-236 | a failed sub-project's message is its label `Subprojeto ${i + 1}: `, then its first failed check |
| Completo.MensagemTarefaForma | src/utils/validacoes.js:242-246 | a failed task's message is the sub-project label, then `Tarefa ${j + 1}: ` counted within that sub-project, then its first failed check |
| Completo.MensagensDoSubprojetoRotuladas | src/utils/validacoes.js:230-249 | every message a sub-project adds starts with its label followed by `": "` (its own checks, line 234) or `" - "` (a task, line 244) |
| Completo.RotuloUnico | src/utils/validacoes.js:234 | such a label names one sub-project only: a message begun as that of sub-project `i` and as that of `k` forces `i == k`, although `Subprojeto 1` is a prefix of `Subprojeto 10` |
| Completo.DigitosAte | src/utils/validacoes.js:234 | the number in `Subprojeto ${subIndex + 1}` is followed by `:` or ` `, not a digit, so the digits after the prefix are determined by the message |
| Completo.MensagensRotuladas | src/utils/validacoes.js:226-255 | every message of a valid project starts with `Subprojeto ` |
| Sanitizacao.TextoAparadoCorreto | src/utils/validacoes.js:262 | `campo?.trim() \|\| ""` is the trimmed value, `""` when missing; it is trimmed and blank exactly when the original is, and leaves a trimmed field unchanged |
| Sanitizacao.TextoAparado | src/utils/validacoes.js:262-264 | `campo?.trim() \|\| ""` is the trimmed value, `""` when missing: the `\|\| ""` changes nothing else |
| Sanitizacao.SanitizarTarefa | src/utils/validacoes.js:272-279 | a sanitized task has trimmed identifier and notes, present dates and a set status, and keeps its other fields |
| Sanitizacao.SanitizarSubprojeto | src/utils/validacoes.js:268-281 | a sanitized sub-project has a trimmed identifier and a task list as long as the original one, and keeps its other fields |
| Sanitizacao.SanitizarProjeto | src/utils/validacoes.js:259-283 | a sanitized project has trimmed text, present dates and a sub-project list as long as the original one, and keeps its other fields |
| Sanitizacao.OuVazio | src/utils/validacoes.js:265-266 | `campo \|\| ""` is always present, truthy exactly when the original is, and then equal to it |
| Sanitizacao.StatusOuPadrao | src/utils/validacoes.js:279 | `status \|\| "NAO_INICIADA"` is always set and keeps a set status; the default is a valid status but not a closed one |
| Sanitizacao.StatusPadrao | src/utils/validacoes.js:279 | the status given to a task without one, `NAO_INICIADA` |
| Sanitizacao.SanitizarTarefaSaneada | src/utils/validacoes.js:272-279 | a sanitized task has trimmed identifier and notes, present dates and a set status, and keeps its other fields; a task already in that form is unchanged |
| Sanitizacao.SanitizarSubprojetoSaneado | src/utils/validacoes.js:268-281 | a sanitized sub-project is in that form, keeps its other fields and holds the sanitized tasks, as many and in the same order |
| Sanitizacao.SanitizarProjetoSaneado | src/utils/validacoes.js:259-283 | a sanitized project is in that form, keeps its other fields and holds the sanitized sub-projects, as many and in the same order |
| Sanitizacao.SanitizarProjetoIdempotente | src/utils/validacoes.js:259-283 | sanitizing twice gives what sanitizing once gives |
| Sanitizacao.TextoAparadoValor | src/utils/validacoes.js:262 | a trimmed field is blank exactly when the original is, and has the same trimmed value |
| Sanitizacao.ErrosProjetoSanitizado | src/utils/validacoes.js:259-266 | `validarProjeto` reports the same messages before and after sanitizing |
| Sanitizacao.ErrosSubprojetoSanitizado | src/utils/validacoes.js:268-270 | `validarSubprojeto` reports the same messages before and after sanitizing |
| Sanitizacao.ErrosTarefaSanitizada | src/utils/validacoes.js:272-279 | sanitizing a task keeps its identifier, planned-end and status checks. Its real-end checks change only when it has a real end date and no status. A notes error can only disappear |
| Sanitizacao.StatusPadraoComFimReal | src/utils/validacoes.js:279 | a task with a real end date and no status passes the status check before sanitizing and fails it after |
| Sanitizacao.ObservacoesAparadas | src/utils/validacoes.js:275 | notes over 500 characters whose trimmed value fits fail before sanitizing and pass after |
| Exemplos.ProjetoCincoErros | src/utils/validacoes.js:57-91 | name `AB`, description `short` and empty client and dates give five messages, in field order |
| Exemplos.ProjetoSeisErros | src/utils/validacoes.js:57-123 | a short name and description, no client, a start exactly two days before today (the least that fires) and a planned end over five years before it give six messages, the most possible |
| Exemplos.TarefaEmAndamentoComFimReal | src/utils/validacoes.js:170-192 | a task `EM_ANDAMENTO` with a real end date fails the status check alone |
| Exemplos.TarefaEmAndamentoMensagem | src/utils/validacoes.js:148-217 | task 1, `EM_ANDAMENTO` with a real end date, gets exactly `Tarefa 1: Tarefa com data fim real deve ter status 'Concluída' ou 'Cancelada'` |
| Exemplos.TarefaConcluidaNoInicio | src/utils/validacoes.js:156-192 | a real end on the start date with status `CONCLUIDA` is accepted; a planned end on the start date is not |
| Exemplos.SubprojetoValido | src/utils/validacoes.js:131-146 | a named sub-project with one task passes its own checks |
| Exemplos.SubprojetoSemTarefasMensagem | src/utils/validacoes.js:231-236 | a named sub-project without tasks adds exactly `Subprojeto 1: ` and the missing-tasks text |

## Left out

- Reading dates and the clock. `new Date(string)` becomes a function that the caller supplies (`LeituraData`). `None` stands for an Invalid Date, whose NaN makes every comparison false. Today's midnight is the parameter `hoje`. The time-zone mismatch between a UTC-parsed date and a local `setHours(0, 0, 0, 0)` is not modelled.
- Floating point. Millisecond differences are integers. `Math.floor` and `Math.ceil` are written as integer division.
- Text encoding. Lengths are counted in code points, not in UTF-16 code units. `trim` and `\s` use the ECMAScript whitespace set over those code points.
- Inputs of the wrong type. A number or an object in a text field would make `.trim()` or `.replace` throw; every field here is a string, a list or missing. `null` and `undefined` are both missing. A `null` element inside `subprojetos` or `tarefas` cannot be written either: the source throws on it when reading `subprojeto.subprojetoId` (line 134) or `tarefa.tarefaId` (line 151), and when `sanitizarProjeto` spreads it.
- Aliasing. When the project checks fail, `validarProjetoCompleto` returns the very object `validarProjeto` built. Here it is an equal value.
- Callbacks and blocks. The `forEach` callbacks are the methods `VisitarTarefa` and `VisitarSubprojeto`. Each `if` block of the rule validators is one `Verificar…` method. The loop methods take the visit function as a ghost parameter.
- The e-mail regular expression. A scan for the first `@` stands in for the regular-expression engine, and is proved equivalent to the pattern's shape.
- `src/utils/utilitarios.js` (alert pop-ups), `src/utils/buscarEnderecoApi.js` (a network request), `src/router/index.js`, `src/main.js` and `tailwind.config.js` are not part of this model.
