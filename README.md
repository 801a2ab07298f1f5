# Reading gamification rules, modelled in Dafny

This project models the rules at the centre of a Spring backend for a
reading-gamification app ("gamificação da leitura"). Readers record
progress on books and earn XP from it. XP accumulates into levels. Goals
complete when a counter reaches its target. Leaderboards are refreshed
after each progress entry, with a five-minute throttle. Books, friendships
and book recommendations are guarded by validation rules.

Persistence is modelled with maps from id to row. Timestamps are integer
seconds. Java's `int`/`long` arithmetic is modelled exactly, including
wrap-around, the narrowing cast, and division that rounds toward zero. An
exception is an `Err`/`Fail` result.

Modules, one per source file plus two shared ones:

- `Comum`: Option/Result/Outcome, ids, and the error messages the services throw.
- `JavaInt`: 32- and 64-bit Java integers.
- `Progressos` (`Progresso.java`): the XP formula and the pre-persist hook that stores it.
- `Usuarios` (`UsuarioService.java` over `Usuario.java`): XP and levels, and the user registry as a class holding a map.
- `Metas` (`Meta.java`): the goal counter, the completion flag that never resets, and the end date of the goal window.
- `RankingAsync` (`RankingAsyncService.java`): the staleness predicate, and the handler that issues the recompute requests. The ranking service is an abstract callee that records a ghost log of calls.
- `Livros` (`LivroService.java` over `Livro.java`): book validation, partial updates, marking books finished, and the book repository as a class.
- `Amizades` (`Amizade.java`) and `Indicacoes` (`Indicacao.java`): the self-reference guards run on insert and update, the entity defaults, and the unique ordered pair of friends.

Verify with `dafny verify *.dfy` (Dafny 4.11).

## Model

Source paths are relative to the repository root.

| member | source | states |
|---|---|---|
| JavaInt.ToInt32 | gamificacaoDaLeitura/src/main/java/br/com/yomu/gamificacaoDaLeitura/service/UsuarioService.java:113 | the `(int)` cast keeps every value in range and changes any other value by a multiple of 2^32 |
| JavaInt.ToInt64 | gamificacaoDaLeitura/src/main/java/br/com/yomu/gamificacaoDaLeitura/service/UsuarioService.java:110 | `long` wrap-around keeps every value in range and changes any other value by a multiple of 2^64 |
| JavaInt.Quot | gamificacaoDaLeitura/src/main/java/br/com/yomu/gamificacaoDaLeitura/service/UsuarioService.java:113 | Java division by a positive divisor rounds toward zero: the remainder has the dividend's sign and is smaller than the divisor |
| JavaInt.AddLong | gamificacaoDaLeitura/src/main/java/br/com/yomu/gamificacaoDaLeitura/service/UsuarioService.java:110 | `long` addition is exact when the sum is in range and otherwise differs from it by a multiple of 2^64 |
| JavaInt.AddInt | gamificacaoDaLeitura/src/main/java/br/com/yomu/gamificacaoDaLeitura/service/UsuarioService.java:113 | `int` addition is exact when the sum is in range and otherwise differs from it by a multiple of 2^32 |
| JavaInt.AddLongAssociative | gamificacaoDaLeitura/src/main/java/br/com/yomu/gamificacaoDaLeitura/service/UsuarioService.java:110 | wrapping `long` addition is associative, so adding awards one by one equals adding their wrapped sum |
| Progressos.XpGerado | gamificacaoDaLeitura/src/main/java/br/com/yomu/gamificacaoDaLeitura/model/Progresso.java:54-61 | the XP is non-negative exactly when the quantity is, and a positive quantity earns at least 10 XP per unit |
| Progressos.XpPorPagina | gamificacaoDaLeitura/src/main/java/br/com/yomu/gamificacaoDaLeitura/model/Progresso.java:56-57 | page progress earns quantity × 10 XP |
| Progressos.XpPorCapitulo | gamificacaoDaLeitura/src/main/java/br/com/yomu/gamificacaoDaLeitura/model/Progresso.java:58-59 | chapter progress earns quantity × 50 XP |
| Progressos.CapituloValeCincoPaginas | gamificacaoDaLeitura/src/main/java/br/com/yomu/gamificacaoDaLeitura/model/Progresso.java:57-59 | for the same quantity, chapter XP is exactly five times page XP |
| Progressos.XpAditivo | gamificacaoDaLeitura/src/main/java/br/com/yomu/gamificacaoDaLeitura/model/Progresso.java:57-59 | for a fixed type, the XP of a + b equals the XP of a plus the XP of b |
| Progressos.XpMinimo | gamificacaoDaLeitura/src/main/java/br/com/yomu/gamificacaoDaLeitura/model/Progresso.java:38-48 | a quantity that meets its @Min(1) earns at least 10 XP, so the stored XP meets its @Min(0) |
| Progressos.Progresso.constructor | gamificacaoDaLeitura/src/main/java/br/com/yomu/gamificacaoDaLeitura/model/Progresso.java:36-48 | a new entry has its quantity and type, and no XP until the hook runs |
| Progressos.Progresso.CalcularXp | gamificacaoDaLeitura/src/main/java/br/com/yomu/gamificacaoDaLeitura/model/Progresso.java:54-61 | with a type present, stores the XP for that type and the quantity; a null type leaves the XP unchanged; only xpGerado is written; a quantity ≥ 1 leaves the entity within its constraints |
| Usuarios.NivelFormula | gamificacaoDaLeitura/src/main/java/br/com/yomu/gamificacaoDaLeitura/service/UsuarioService.java:113-114 | for every total from 0 up to the level limit, the level is total / 1000 + 1, and so at least 1 |
| Usuarios.Nivel | gamificacaoDaLeitura/src/main/java/br/com/yomu/gamificacaoDaLeitura/service/UsuarioService.java:113 | every total from 0 up to the level limit gives a level of at least 1 (NivelFormula gives the exact value) |
| Usuarios.NivelMonotono | gamificacaoDaLeitura/src/main/java/br/com/yomu/gamificacaoDaLeitura/service/UsuarioService.java:113 | on that range, a larger total never gives a lower level |
| Usuarios.NivelDeTotalNegativo | gamificacaoDaLeitura/src/main/java/br/com/yomu/gamificacaoDaLeitura/service/UsuarioService.java:113 | division rounds toward zero, so a total between -999 and -1 is still level 1 |
| Usuarios.NivelTransborda | gamificacaoDaLeitura/src/main/java/br/com/yomu/gamificacaoDaLeitura/service/UsuarioService.java:113 | at 2147483647000 XP the `int` addition overflows and the level becomes -2147483648 |
| Usuarios.ComXp | gamificacaoDaLeitura/src/main/java/br/com/yomu/gamificacaoDaLeitura/service/UsuarioService.java:108-117 | after adicionarXp the total is the old total plus xp (when it does not overflow), the level is recomputed from the new total, and no other field changes |
| Usuarios.ComXpDuasVezes | gamificacaoDaLeitura/src/main/java/br/com/yomu/gamificacaoDaLeitura/service/UsuarioService.java:110-114 | the level is recomputed, not incremented: adding a and then b gives the same user as adding a + b once |
| Usuarios.ComXpSobeDeNivel | gamificacaoDaLeitura/src/main/java/br/com/yomu/gamificacaoDaLeitura/service/UsuarioService.java:110-114 | a user at 950 XP who earns 50 reaches 1000 XP and level 2 |
| Usuarios.NovoUsuarioCoerente | gamificacaoDaLeitura/src/main/java/br/com/yomu/gamificacaoDaLeitura/model/Usuario.java:59-67 | the defaults (0 XP, level 1) agree with the level formula |
| Usuarios.NovoUsuario | gamificacaoDaLeitura/src/main/java/br/com/yomu/gamificacaoDaLeitura/model/Usuario.java:59-67 | a new user has 0 XP and level 1 and keeps the given username, email and photo |
| Usuarios.ComXpMonotono | gamificacaoDaLeitura/src/main/java/br/com/yomu/gamificacaoDaLeitura/service/UsuarioService.java:108-117 | a non-negative award never lowers the total; below the level limit it never lowers the level, which stays at least 1 |
| Usuarios.AcumularXp | gamificacaoDaLeitura/src/main/java/br/com/yomu/gamificacaoDaLeitura/service/UsuarioService.java:107-117 | a sequence of awards changes only the total and the level, and after at least one award the level agrees with the total (AcumularXpFormula gives the values) |
| Usuarios.AcumularXpFormula | gamificacaoDaLeitura/src/main/java/br/com/yomu/gamificacaoDaLeitura/service/UsuarioService.java:108-117 | from a coherent user, any sequence of non-negative awards below the level limit leaves the total at the start plus their sum, the level given by the formula, and a level that never decreases and is at least 1 |
| Usuarios.GravarPreservaTabela | gamificacaoDaLeitura/src/main/java/br/com/yomu/gamificacaoDaLeitura/model/Usuario.java:34-69 | a save that the unique columns (email, username, invite code) allow keeps every unique column free of duplicates |
| Usuarios.ParaRegistro | gamificacaoDaLeitura/src/main/java/br/com/yomu/gamificacaoDaLeitura/service/UsuarioService.java:66-72 | the saved user has the generated id and invite code; an embedded "data:image" photo is replaced by the stored image's path; any other photo is kept; a failing image store fails the registration; nothing else changes |
| Usuarios.ComPerfil | gamificacaoDaLeitura/src/main/java/br/com/yomu/gamificacaoDaLeitura/service/UsuarioService.java:96-102 | only the username and the photo change, each only when the update carries it; the photo always goes through the image store; a failing store fails the update |
| Usuarios.UsuarioService.constructor | gamificacaoDaLeitura/src/main/java/br/com/yomu/gamificacaoDaLeitura/service/UsuarioService.java:17-19 | the service starts with an empty, valid repository |
| Usuarios.UsuarioService.Criar | gamificacaoDaLeitura/src/main/java/br/com/yomu/gamificacaoDaLeitura/service/UsuarioService.java:58-75 | a registered email is rejected first, then a taken username; an image store failure returns its error; on success the user from ParaRegistro is stored under the new id; a duplicate invite code fails at the unique constraint; nothing is stored on any rejection; the table stays valid |
| Usuarios.UsuarioService.BuscarPorId | gamificacaoDaLeitura/src/main/java/br/com/yomu/gamificacaoDaLeitura/service/UsuarioService.java:77-80 | fails with "user not found" exactly when no user has the id, and otherwise returns that user |
| Usuarios.UsuarioService.BuscarPorEmail | gamificacaoDaLeitura/src/main/java/br/com/yomu/gamificacaoDaLeitura/service/UsuarioService.java:82-85 | fails exactly when no user has the email, and otherwise returns the only user that has it |
| Usuarios.UsuarioService.BuscarPorCodigoConvite | gamificacaoDaLeitura/src/main/java/br/com/yomu/gamificacaoDaLeitura/service/UsuarioService.java:87-90 | fails with "invalid invite code" exactly when no user has the code, and otherwise returns the only user that has it |
| Usuarios.UsuarioService.Atualizar | gamificacaoDaLeitura/src/main/java/br/com/yomu/gamificacaoDaLeitura/service/UsuarioService.java:92-105 | an unknown id fails and nothing changes; otherwise the row becomes ComPerfil of the old row, unless the image store fails (its error is returned) or the new row breaks a unique column (a unique-constraint error); nothing changes on any failure |
| Usuarios.UsuarioService.AdicionarXp | gamificacaoDaLeitura/src/main/java/br/com/yomu/gamificacaoDaLeitura/service/UsuarioService.java:107-117 | an unknown id fails and nothing changes; otherwise only that user's row changes, to ComXp of the old row |
| Metas.Passo | gamificacaoDaLeitura/src/main/java/br/com/yomu/gamificacaoDaLeitura/model/Meta.java:73-78 | the counter grows by the amount (when it does not overflow); the goal is complete afterwards exactly when it was complete before or the new counter reaches the target |
| Metas.PassoCompleta | gamificacaoDaLeitura/src/main/java/br/com/yomu/gamificacaoDaLeitura/model/Meta.java:73-78 | target 100, counter 95, plus 10 gives 105 and completes the goal |
| Metas.PassoAbaixoDoAlvo | gamificacaoDaLeitura/src/main/java/br/com/yomu/gamificacaoDaLeitura/model/Meta.java:75-77 | an open goal whose new counter is below the target stays open |
| Metas.PassoSemGuarda | gamificacaoDaLeitura/src/main/java/br/com/yomu/gamificacaoDaLeitura/model/Meta.java:73-78 | nothing checks completion or the sign of the amount: a completed goal still moves its counter, and a negative amount lowers it while the goal stays complete |
| Metas.PassoMonotono | gamificacaoDaLeitura/src/main/java/br/com/yomu/gamificacaoDaLeitura/model/Meta.java:45-47 | with a non-negative amount that does not overflow, the counter never decreases |
| Metas.PassoCoerente | gamificacaoDaLeitura/src/main/java/br/com/yomu/gamificacaoDaLeitura/model/Meta.java:73-78 | after any call, a counter at or above the target means the goal is complete |
| Metas.ConcluidaPermanece | gamificacaoDaLeitura/src/main/java/br/com/yomu/gamificacaoDaLeitura/model/Meta.java:73-78 | completion is never undone: once set, it survives any sequence of calls |
| Metas.Percorrer | gamificacaoDaLeitura/src/main/java/br/com/yomu/gamificacaoDaLeitura/model/Meta.java:73-78 | any non-empty sequence of calls, or any sequence from a coherent goal, ends coherent: a counter at or above the target means complete (PercorrerAcumula gives the values) |
| Metas.PercorrerAcumula | gamificacaoDaLeitura/src/main/java/br/com/yomu/gamificacaoDaLeitura/model/Meta.java:73-78 | without overflow, non-negative amounts add up exactly, and the goal ends complete exactly when it started complete or the final counter reaches the target |
| Metas.DataFim | gamificacaoDaLeitura/src/main/java/br/com/yomu/gamificacaoDaLeitura/model/Meta.java:69 | the end of the window is the start plus the duration in days, at 86400 seconds per day, and never before the start |
| Metas.Meta.constructor | gamificacaoDaLeitura/src/main/java/br/com/yomu/gamificacaoDaLeitura/model/Meta.java:45-56 | a new goal starts with counter 0 and is not complete |
| Metas.Meta.CalcularDataFim | gamificacaoDaLeitura/src/main/java/br/com/yomu/gamificacaoDaLeitura/model/Meta.java:66-71 | with both the start and the type present, the end is DataFim(start, duration of the type); otherwise the end is unchanged; only dataFim is written |
| Metas.Meta.AtualizarProgresso | gamificacaoDaLeitura/src/main/java/br/com/yomu/gamificacaoDaLeitura/model/Meta.java:73-78 | the counter and the flag take the next state of Passo, the flag is never cleared, and only those two fields are written |
| RankingAsync.DeveAtualizarRanking | gamificacaoDaLeitura/src/main/java/br/com/yomu/gamificacaoDaLeitura/service/RankingAsyncService.java:66-82 | recompute when no snapshot exists, when the lookup throws or the timestamp is null, and otherwise exactly when the snapshot was updated strictly before now minus five minutes |
| RankingAsync.LimiteDoThrottle | gamificacaoDaLeitura/src/main/java/br/com/yomu/gamificacaoDaLeitura/service/RankingAsyncService.java:75-76 | a snapshot exactly five minutes old is kept and one a second older is recomputed; at 4 minutes it is kept and at 6 recomputed |
| RankingAsync.DeveAtualizarMonotono | gamificacaoDaLeitura/src/main/java/br/com/yomu/gamificacaoDaLeitura/service/RankingAsyncService.java:75-76 | a snapshot due for recomputation stays due at every later instant |
| RankingAsync.SeNecessario | gamificacaoDaLeitura/src/main/java/br/com/yomu/gamificacaoDaLeitura/service/RankingAsyncService.java:57-64 | at most one call, issued exactly when the key is stale, and that call is the general recomputation for the period |
| RankingAsync.Plano | gamificacaoDaLeitura/src/main/java/br/com/yomu/gamificacaoDaLeitura/service/RankingAsyncService.java:38-54 | the handler plans between two and six calls: up to four general ones and always the two friends ones |
| RankingAsync.PlanoGeralSeVencido | gamificacaoDaLeitura/src/main/java/br/com/yomu/gamificacaoDaLeitura/service/RankingAsyncService.java:40-43 | a general request for a period is issued exactly when its key is stale, so a throttled key causes no call |
| RankingAsync.PlanoTerminaComAmigos | gamificacaoDaLeitura/src/main/java/br/com/yomu/gamificacaoDaLeitura/service/RankingAsyncService.java:47-48 | the requests end with the weekly and then the monthly friends ranking of the event's user, with no throttle; all earlier requests are general ones |
| RankingAsync.PlanoOrdenado | gamificacaoDaLeitura/src/main/java/br/com/yomu/gamificacaoDaLeitura/service/RankingAsyncService.java:40-48 | general requests come in the order SEMANAL, MENSAL, ANUAL, TOTAL, each at most once, and all before the friends requests |
| RankingAsync.AteFalhaPrefixo | gamificacaoDaLeitura/src/main/java/br/com/yomu/gamificacaoDaLeitura/service/RankingAsyncService.java:38-54 | the calls issued are a prefix of the plan in which only the last call may throw; they stop short of the plan only after a call that throws, and are the whole plan when no call throws |
| RankingAsync.AteFalha | gamificacaoDaLeitura/src/main/java/br/com/yomu/gamificacaoDaLeitura/service/RankingAsyncService.java:38-54 | the calls issued never outnumber the plan (AteFalhaPrefixo states that they are a prefix of it) |
| RankingAsync.AteFalhaPasso | gamificacaoDaLeitura/src/main/java/br/com/yomu/gamificacaoDaLeitura/service/RankingAsyncService.java:38-54 | one step either throws and ends the run, or is followed by the rest of the run |
| RankingAsync.RankingService.constructor | gamificacaoDaLeitura/src/main/java/br/com/yomu/gamificacaoDaLeitura/service/RankingAsyncService.java:24-25 | the abstract ranking service starts with an empty call log and a fixed set of calls that throw |
| RankingAsync.RankingService.CalcularERankingGeral | gamificacaoDaLeitura/src/main/java/br/com/yomu/gamificacaoDaLeitura/service/RankingAsyncService.java:60 | the general recomputation call is appended to the log and reports whether it threw |
| RankingAsync.RankingService.CalcularERankingAmigos | gamificacaoDaLeitura/src/main/java/br/com/yomu/gamificacaoDaLeitura/service/RankingAsyncService.java:47-48 | the friends recomputation call is appended to the log and reports whether it threw |
| RankingAsync.RankingAsyncService.constructor | gamificacaoDaLeitura/src/main/java/br/com/yomu/gamificacaoDaLeitura/service/RankingAsyncService.java:24-25 | the handler is wired to the ranking service |
| RankingAsync.RankingAsyncService.AtualizarRankingSeNecessario | gamificacaoDaLeitura/src/main/java/br/com/yomu/gamificacaoDaLeitura/service/RankingAsyncService.java:57-64 | the general recomputation is called exactly when the key is stale; a skipped key adds nothing to the log; reports whether the call threw |
| RankingAsync.RankingAsyncService.OnProgressoRegistrado | gamificacaoDaLeitura/src/main/java/br/com/yomu/gamificacaoDaLeitura/service/RankingAsyncService.java:35-55 | the log grows by exactly the plan cut after the first call that throws; the exception never escapes the handler |
| Livros.NovoLivroNaoFinalizado | gamificacaoDaLeitura/src/main/java/br/com/yomu/gamificacaoDaLeitura/model/Livro.java:71 | a new book starts unfinished |
| Livros.NovoLivro | gamificacaoDaLeitura/src/main/java/br/com/yomu/gamificacaoDaLeitura/model/Livro.java:71 | a new book is unfinished and keeps the given counts and registration type |
| Livros.ValidarLivro | gamificacaoDaLeitura/src/main/java/br/com/yomu/gamificacaoDaLeitura/service/LivroService.java:68-78 | a page-counted book with a null or non-positive page count fails with the pages message, and a chapter-counted book with a null or non-positive chapter count fails with the chapters message, both exactly then; everything else passes |
| Livros.ValidarIgnoraOutraContagem | gamificacaoDaLeitura/src/main/java/br/com/yomu/gamificacaoDaLeitura/service/LivroService.java:68-78 | only the count that matches the registration type is consulted |
| Livros.ComAtualizacao | gamificacaoDaLeitura/src/main/java/br/com/yomu/gamificacaoDaLeitura/service/LivroService.java:47-51 | title, author, description, cover and finished flag are each copied only when present; counts, type, owner and id never change |
| Livros.AtualizacaoPreservaValidacao | gamificacaoDaLeitura/src/main/java/br/com/yomu/gamificacaoDaLeitura/service/LivroService.java:43-54 | an update cannot change the outcome of validation, so not re-running it loses nothing |
| Livros.AtualizacaoIdempotente | gamificacaoDaLeitura/src/main/java/br/com/yomu/gamificacaoDaLeitura/service/LivroService.java:47-51 | applying an update twice equals applying it once, and the empty update changes nothing |
| Livros.Finalizado | gamificacaoDaLeitura/src/main/java/br/com/yomu/gamificacaoDaLeitura/service/LivroService.java:59 | the finished flag becomes true and nothing else changes |
| Livros.FinalizadoIdempotente | gamificacaoDaLeitura/src/main/java/br/com/yomu/gamificacaoDaLeitura/service/LivroService.java:56-61 | marking finished is idempotent and equals the update that carries only finalizado = true |
| Livros.AtualizacaoDoCorpo | gamificacaoDaLeitura/src/main/java/br/com/yomu/gamificacaoDaLeitura/controller/LivroController.java:147-170 | as written, the bound update carries the same fields as the corrected binding except the flag, which is carried unless sent as null, and is the sent value when one is sent |
| Livros.CorpoSemFinalizadoReabre | gamificacaoDaLeitura/src/main/java/br/com/yomu/gamificacaoDaLeitura/service/LivroService.java:51 | as written, a body without `finalizado` leaves a finished book unfinished; even a body that sends only the stored title and author (the fields bean validation requires) carries more than those two fields and changes the book |
| Livros.AtualizacaoDoCorpoCorrigida | gamificacaoDaLeitura/src/main/java/br/com/yomu/gamificacaoDaLeitura/controller/LivroController.java:141 | every field, the flag included, is carried exactly when the body sends a value for it |
| Livros.CorpoCorrigidoPreservaOmitidos | gamificacaoDaLeitura/src/main/java/br/com/yomu/gamificacaoDaLeitura/controller/LivroController.java:141 | with the corrected binding, each field is the sent value or else the stored one, the body that sends nothing is the empty update, and it agrees with the code as written whenever the flag is not left out |
| Livros.LivroService.constructor | gamificacaoDaLeitura/src/main/java/br/com/yomu/gamificacaoDaLeitura/service/LivroService.java:18-19 | the service starts with an empty repository and the user service it resolves owners with |
| Livros.LivroService.Criar | gamificacaoDaLeitura/src/main/java/br/com/yomu/gamificacaoDaLeitura/service/LivroService.java:22-28 | an unknown owner fails before validation; an invalid book fails with its validation error; otherwise the book, with the owner and the new id set, is stored; nothing is stored on failure |
| Livros.LivroService.BuscarPorId | gamificacaoDaLeitura/src/main/java/br/com/yomu/gamificacaoDaLeitura/service/LivroService.java:30-33 | fails with "book not found" exactly when no book has the id, and otherwise returns that book |
| Livros.LivroService.Atualizar | gamificacaoDaLeitura/src/main/java/br/com/yomu/gamificacaoDaLeitura/service/LivroService.java:43-54 | an unknown id fails and nothing changes; otherwise only that row changes, to ComAtualizacao of the old row |
| Livros.LivroService.MarcarComoFinalizado | gamificacaoDaLeitura/src/main/java/br/com/yomu/gamificacaoDaLeitura/service/LivroService.java:56-61 | an unknown id fails and nothing changes; otherwise only that book's finished flag is set |
| Amizades.Validar | gamificacaoDaLeitura/src/main/java/br/com/yomu/gamificacaoDaLeitura/model/Amizade.java:57-63 | fails with "cannot add yourself" exactly when the two user ids are equal; it produces no new row, so no field changes |
| Amizades.ValidarSoOlhaUsuarios | gamificacaoDaLeitura/src/main/java/br/com/yomu/gamificacaoDaLeitura/model/Amizade.java:59-63 | only the two user ids decide validation |
| Amizades.NovaAmizade | gamificacaoDaLeitura/src/main/java/br/com/yomu/gamificacaoDaLeitura/model/Amizade.java:47 | a new request has status PENDENTE, no acceptance date, and the two given users |
| Amizades.Persistir | gamificacaoDaLeitura/src/main/java/br/com/yomu/gamificacaoDaLeitura/model/Amizade.java:17-20 | on insert, a self-friendship is rejected first, then an ordered pair already stored fails the unique constraint; otherwise the row is added unchanged except for its new id |
| Amizades.Atualizar | gamificacaoDaLeitura/src/main/java/br/com/yomu/gamificacaoDaLeitura/model/Amizade.java:57-58 | on update the check runs again, so no update can make the pair self-referential; a pair held by another row fails the unique constraint; otherwise the row is replaced |
| Amizades.PersistirPreservaTabela | gamificacaoDaLeitura/src/main/java/br/com/yomu/gamificacaoDaLeitura/model/Amizade.java:17-20 | inserting keeps the table free of self-friendships and of duplicate ordered pairs |
| Amizades.AtualizarPreservaTabela | gamificacaoDaLeitura/src/main/java/br/com/yomu/gamificacaoDaLeitura/model/Amizade.java:57-63 | updating keeps the table free of self-friendships and of duplicate ordered pairs |
| Amizades.NovaAmizadePendente | gamificacaoDaLeitura/src/main/java/br/com/yomu/gamificacaoDaLeitura/model/Amizade.java:47 | a new request between two different users whose pair is not stored yet is saved with status PENDENTE |
| Amizades.ParOrdenado | gamificacaoDaLeitura/src/main/java/br/com/yomu/gamificacaoDaLeitura/model/Amizade.java:17-20 | the constraint is on the ordered pair: with (A, B) stored, (A, B) is refused and (B, A) is accepted |
| Indicacoes.Validar | gamificacaoDaLeitura/src/main/java/br/com/yomu/gamificacaoDaLeitura/model/Indicacao.java:50-56 | fails with "sender and recipient must differ" exactly when they are equal; it produces no new row, so no field changes |
| Indicacoes.ValidarSoOlhaUsuarios | gamificacaoDaLeitura/src/main/java/br/com/yomu/gamificacaoDaLeitura/model/Indicacao.java:52-56 | the book, the message and the read flag never decide validation |
| Indicacoes.NovaIndicacao | gamificacaoDaLeitura/src/main/java/br/com/yomu/gamificacaoDaLeitura/model/Indicacao.java:44 | a new recommendation is unread and keeps the given sender, recipient, book and message |
| Indicacoes.Persistir | gamificacaoDaLeitura/src/main/java/br/com/yomu/gamificacaoDaLeitura/model/Indicacao.java:50-56 | on insert, a self-recommendation is rejected; otherwise the row is added unchanged except for its new id |
| Indicacoes.Atualizar | gamificacaoDaLeitura/src/main/java/br/com/yomu/gamificacaoDaLeitura/model/Indicacao.java:50-56 | on update the check runs again, so no update can make it self-referential; otherwise the row is replaced |
| Indicacoes.PersistirPreservaTabela | gamificacaoDaLeitura/src/main/java/br/com/yomu/gamificacaoDaLeitura/model/Indicacao.java:50-56 | inserting keeps the table free of self-recommendations |
| Indicacoes.AtualizarPreservaTabela | gamificacaoDaLeitura/src/main/java/br/com/yomu/gamificacaoDaLeitura/model/Indicacao.java:50-56 | updating keeps the table free of self-recommendations |
| Indicacoes.NovaIndicacaoNaoLida | gamificacaoDaLeitura/src/main/java/br/com/yomu/gamificacaoDaLeitura/model/Indicacao.java:44 | a new recommendation to someone else is stored as constructed and unread |
| Indicacoes.MarcarComoLidaAceita | gamificacaoDaLeitura/src/main/java/br/com/yomu/gamificacaoDaLeitura/model/Indicacao.java:50-56 | marking a stored recommendation read passes the update check and changes only its flag |

## Left out

- `login`, `listarTodos`, `deletar`, `listarPorUsuario` and `listarPorUsuarioEStatus` are not modelled. They are authentication and plain repository reads and deletes, not rules.
- `salvarImagem` is a parameter from the Base64 text to the stored path. `None` stands for the exception it throws. Its file I/O and decoding are not modelled.
- `gerarCodigoConvite` is a random UUID slice. It becomes an arbitrary invite-code argument; a code that is already in use fails at the unique constraint on save.
- The database generates ids. They are arguments, and a new row's id must be unused. An id supplied in the request body is not modelled.
- Bean validation (`@Min`, `@NotBlank`, `@Email`) and NOT NULL columns are not enforced on save, except where a lemma states that a value meets its constraint. A null `quantidade`, `quantidadeAlvo`, `quantidadeAtual`, or `Long xp` argument of `adicionarXp` (a NullPointerException when unboxed) is not modelled: those values are plain integers.
- Progressos.Progresso.CalcularXp: the quantity is never null, so the null-pointer exception of unboxing a null `Integer` is not modelled.
- Async execution, transactions, the post-commit event phase and logging are not modelled. The handler is a sequential method.
- RankingService's aggregation, sort order, tie-breaking and friend queries are not part of this model. Its two calls are recorded in a ghost log, and a fixed set of calls throw.
- The clock: each staleness check reads the clock once, and the four readings are arguments (`Relogio`). The repository snapshot lookup is a map argument, read once for the whole handler, so a recompute is assumed not to change the snapshot that a later check of another key reads (the plan's keys are all distinct); `Falha` stands for a lookup that throws.
- `TipoMeta.getDuracaoDias` is not part of this model: it is a function argument to a natural number of days. The constants of `TipoMeta`, `UnidadeMeta` and `TipoRanking` other than those the modelled code names are not part of this model either; `StatusAmizade` keeps `PENDENTE` and holds any other constant by name.
- Timestamps set by Hibernate (`createdAt`, `updatedAt`, `dataSolicitacao`) are not modelled.
- Usuarios.NivelFormula, Usuarios.NivelMonotono and Usuarios.ComXpMonotono hold only between 0 and 2147483647000 XP. At the top of that range the level overflows; NivelTransborda shows the value.
- Usuarios.AcumularXpFormula holds only for non-negative awards whose running total stays below 2147483647000.
- Metas.PercorrerAcumula holds only for non-negative amounts whose sum does not overflow an `int`, on a goal that is already coherent.
- The uniqueness of the `codigoConvite`, `email` and `nomeUsuario` columns is checked on every save of a user; the order in which the database would report two violations at once is not modelled.
- Request binding: `LivroService.Atualizar` takes the update as already bound from the body; the corrected binding is `AtualizacaoDoCorpoCorrigida`, and Jackson's other binding rules are not modelled.

## Findings

| source | as written | input that shows it | evidently intended | confidence | as-written member | corrected member |
|---|---|---|---|---|---|---|
| gamificacaoDaLeitura/src/main/java/br/com/yomu/gamificacaoDaLeitura/service/LivroService.java:51 | the PUT body is bound to a new `Livro`, whose `finalizado` field starts as `false` (model/Livro.java:71), so the null check on line 51 never sees a flag the body left out and writes `false` | `PUT /api/livros/{id}` with `{"titulo": "X", "autor": "Y"}` on a book whose `finalizado` is true: the book is stored unfinished | fields the body does not send stay as they are (controller/LivroController.java:141), so the flag is left unchanged | not executed | Livros.CorpoSemFinalizadoReabre | Livros.CorpoCorrigidoPreservaOmitidos |
