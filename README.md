# Parties registry: document checksums, field validator and registry store

This project models, in Dafny, the core of the "partes interessadas" (interested
parties) registry of a legal-process management app:

- `ValidacaoService` (`validacao.dfy`, properties in `validacao_lemmas.dfy`):
  the CPF (individual, 11 digits) and CNPJ (organization, 14 digits) validators.
  Each strips every non-digit, rejects a wrong length or a single repeated
  digit, and recomputes the two trailing mod-11 check digits. The service also
  dispatches on the party type ("PF" is CPF, anything else CNPJ) and formats a
  document as `NNN.NNN.NNN-NN` or `NN.NNN.NNN/NNNN-NN`. The checksums are
  predicates over the digit sequence (`CpfValido`, `CnpjValido`). The source's
  accumulating loops (`ValidarCpf`, `CalcularDigito`, `ValidarCnpj`) are
  methods proved equal to them.
- `DocumentoValidator.validarDocumento` (`documento_validator.dfy`): the
  form-field validator. An empty document or type gives no error. Otherwise it
  reports `documentoInvalido` exactly when the checksum for the type fails.
- `PartesInteressadasService` (`partes_interessadas.dfy`): a class whose
  `partes` field is the current value of the service's subject. Two ghost
  fields record the rest. `publicados` is the log of every snapshot the
  subject emitted. `armazenado` is the storage slot `partes_interessadas`.
  `add` always builds a new list, publishes it and stores it. `update` and
  `delete` do so on success, that is when some record holds the id.
  Lookup by id, the count and seeding with two sample records complete it.

Inputs from outside the program are parameters. The clock reading that
becomes a new record's id is the `agora` argument of `AddParteInteressada`.
What the storage slot held at start-up is the constructor's `lido` argument.
A parse failure is the `Corrompido` case of that argument.

A caller might expect unique ids, immutable ids, valid sample documents and
read-only snapshots. The code gives none of these, and the model follows the
code where it can:

- Ids are `Date.now()`, so two adds within one millisecond get the same id
  (`MesmoInstanteRepeteId`). Lookup then finds the older record
  (`EncontrarAposAdicionar`).
- `update` spreads the partial record over the old one, so a partial that
  carries an `id` replaces the id (`AtualizarTrocaId`).
- The seed documents `123.456.789-00` and `12.345.678/0001-90` fail their own
  check digits (`AmostraNaoValida`).
- The list getter returns the subject's own array, `add` returns the very
  record object it appended, the lookup returns the stored record object
  itself, and `next` hands every subscriber that same array. A caller that changes them in place changes the registry without
  publishing or storing. The model's results are values, so it cannot show
  this aliasing (see "Left out").
- With fewer digits than the pattern needs, formatting returns the bare digits
  (`FormatarSemCorrespondencia`). With more, the extra digits follow the
  formatted prefix, because the replace is not anchored.

JavaScript's `%` truncates toward zero, and `RestoJs` models it. The sums are
never negative for digit input, so there it agrees with Dafny's `%`.

## Model

| member | source | states |
|---|---|---|
| `Validacao.Limpar` | src/app/services/validacao.service.ts:16 | the stripped string holds only ASCII digits and is no longer than the input |
| `Validacao.ValidarCpf` | src/app/services/validacao.service.ts:15-39 | the loop verdict equals `CpfValido`: false unless exactly 11 digits, not all equal, whose check digits (weights 10..2, then 11..2) match positions 9 and 10 |
| `Validacao.DigitoCpf` | src/app/services/validacao.service.ts:28-29 | `11 - soma % 11`, with 10 and 11 mapped to 0, is always a digit 0..9 |
| `Validacao.CalcularDigito` | src/app/services/validacao.service.ts:55-64 | the loop with the wrapping `pos` computes `DigitoCnpj(base)`, a digit 0..9 |
| `Validacao.DigitoCnpj` | src/app/services/validacao.service.ts:62-63 | the CNPJ check digit (0 when `soma % 11 < 2`, else `11 - soma % 11`) lies in 0..9 |
| `Validacao.ValidarCnpj` | src/app/services/validacao.service.ts:46-72 | the verdict equals `CnpjValido`: false unless exactly 14 digits, not all equal, whose digit over the first 12 is d[12] and whose digit over those 12 plus it is d[13] |
| `Validacao.FormatarDocumento` | src/app/services/validacao.service.ts:94-101 | the output holds only digits and the separators '.', '/' and '-', and is at least as long as the input's digits and at most four characters longer |
| `Validacao.ValidarDocumento` | src/app/services/validacao.service.ts:80-86 | "PF" gets the CPF verdict, every other type the CNPJ verdict |
| `ValidacaoLemas.LimparConcat` | src/app/services/validacao.service.ts:16 | stripping distributes over concatenation, so digits keep their order |
| `ValidacaoLemas.LimparDigitos` | src/app/services/validacao.service.ts:95 | a string of digits is left unchanged by stripping |
| `ValidacaoLemas.SoDigitosImportam` | src/app/services/validacao.service.ts:15-101 | inserting a non-digit anywhere changes neither the CPF, CNPJ or dispatched verdict nor the formatted output |
| `ValidacaoLemas.FormatarPreservaDigitos` | src/app/services/validacao.service.ts:94-101 | stripping the formatted document gives back the input's digits (round trip) |
| `ValidacaoLemas.FormatoCpf` | src/app/services/validacao.service.ts:97-98 | with at least 11 digits, "PF" output is 3 longer than the digits, with '.' at 3 and 7 and '-' at 11 |
| `ValidacaoLemas.FormatoCnpj` | src/app/services/validacao.service.ts:99-100 | with at least 14 digits, other output is 4 longer than the digits, with '.' at 2 and 6, '/' at 10 and '-' at 15 |
| `ValidacaoLemas.FormatarSemCorrespondencia` | src/app/services/validacao.service.ts:94-101 | with fewer digits than the pattern needs, the result is the stripped digit string |
| `ValidacaoLemas.FormatarIdempotente` | src/app/services/validacao.service.ts:94-101 | formatting a formatted document changes nothing |
| `ValidacaoLemas.FormatarPreservaValidade` | src/app/services/validacao.service.ts:94-101 | the formatted document gets the same CPF, CNPJ and dispatched verdict as the raw one |
| `ValidacaoLemas.PesoCiclico` | src/app/services/validacao.service.ts:57-60 | for base lengths 9..16 the weight at index i is `2 + (n-1-i) mod 8`: the cycle 2..9 counted from the right, always in 2..9 |
| `ValidacaoLemas.PesosOficiaisCnpj` | src/app/services/validacao.service.ts:57-60 | the weights for 12 and 13 digits are the published tables 5,4,3,2,9,8,7,6,5,4,3,2 and 6,5,...,2 |
| `ValidacaoLemas.CpfValidoSeCompleto` | src/app/services/validacao.service.ts:22-38 | a CPF is valid iff its 11 digits are not all equal and equal their first nine followed by the two check digits, the second computed over the first |
| `ValidacaoLemas.CpfCompletoValido` | src/app/services/validacao.service.ts:15-39 | every nine-digit base that is not one repeated digit, completed with its check digits, is accepted |
| `ValidacaoLemas.CnpjValidoSeCompleto` | src/app/services/validacao.service.ts:53-71 | a CNPJ is valid iff its 14 digits are not all equal and equal their first twelve followed by their two check digits |
| `ValidacaoLemas.CnpjCompletoValido` | src/app/services/validacao.service.ts:46-72 | every twelve-digit base that is not one repeated digit, completed with its check digits, is accepted |
| `ValidacaoLemas.CpfConhecido` | src/app/services/validacao.service.ts:15-39 | 52998224725 is a valid CPF and formats as 529.982.247-25 |
| `ValidacaoLemas.CnpjConhecido` | src/app/services/validacao.service.ts:46-72 | 11222333000181 is a valid CNPJ and formats as 11.222.333/0001-81 |
| `ValidacaoLemas.SomaCnpjTroca` | src/app/services/validacao.service.ts:55-61 | changing digit i of a base changes the weighted sum by i's weight times the change, and only when i is among the digits summed |
| `ValidacaoLemas.NaoMultiploDeOnze` | src/app/services/validacao.service.ts:62 | a weight 2..9 times a non-zero one-digit change is never a multiple of 11 |
| `ValidacaoLemas.DigitoCnpjDetectaTroca` | src/app/services/validacao.service.ts:55-64 | when a twelve-digit base's sum leaves remainder 2 or more, changing any one base digit changes the check digit |
| `ValidacaoLemas.CnpjConhecidoDetectaTroca` | src/app/services/validacao.service.ts:46-72 | every single-digit change of 11222333000181, at any of its 14 positions, makes it invalid |
| `ValidacaoLemas.CnpjTrocaNaoDetectada` | src/app/services/validacao.service.ts:46-72 | not every single-digit change is caught: 71147759745900 and 71147759945900 differ only at position 8 and both are valid, since remainders 0 and 1 both give check digit 0 |
| `DocumentoValidator.ValidarDocumento` | src/app/validators/documento.validator.ts:5-28 | no error for an absent or empty document or type; otherwise an error exactly when the document fails its type's check, carrying the value, the type and "CPF inválido" for PF or "CNPJ inválido" otherwise |
| `DocumentoValidator.ValidadorAceitaFormatado` | src/app/validators/documento.validator.ts:14-26 | a document the validator accepts still passes it after formatting, and the formatted text is not empty |
| `DocumentoValidator.ValidadorIgnoraPontuacao` | src/app/validators/documento.validator.ts:14-26 | inserting a non-digit into a non-empty document never changes whether the field is reported |
| `DocumentoValidator.PontuacaoEmCampoVazio` | src/app/validators/documento.validator.ts:10-26 | on an empty field a typed separator is what makes the field reported: the empty text gives no error, a lone non-digit gives an error for every type |
| `PartesInteressadas.ComId` | src/app/services/partes-interessadas.service.ts:56-59 | the new record carries the given id and, without its id, is exactly the data passed in |
| `PartesInteressadas.Mesclar` | src/app/services/partes-interessadas.service.ts:76 | the merged record has every property the partial carries, the id included, and agrees with the old record on the rest; a partial that already agrees with the record leaves it unchanged |
| `PartesInteressadas.IndiceDe` | src/app/services/partes-interessadas.service.ts:72 | -1 iff no record has the id, else the first index whose record has it |
| `PartesInteressadas.Encontrar` | src/app/services/partes-interessadas.service.ts:100 | none iff no record has the id, else the record at the first index holding it |
| `PartesInteressadas.Sem` | src/app/services/partes-interessadas.service.ts:88 | keeps exactly the records whose id differs; the length is unchanged iff no record had the id |
| `PartesInteressadas.PartesInteressadasService.constructor` | src/app/services/partes-interessadas.service.ts:22-37 | starts from the subject's `[]`, then loads: the stored list when one is present, `[]` (published) on a parse failure, nothing more when the slot is empty |
| `PartesInteressadas.PartesInteressadasService.Next` | src/app/services/partes-interessadas.service.ts:64 | `subject.next` (also at lines 31, 35, 78, 91 and 128): the list becomes the argument, which is appended to the published log; the storage slot is untouched |
| `PartesInteressadas.PartesInteressadasService.LoadFromStorage` | src/app/services/partes-interessadas.service.ts:26-37 | publishes the stored list, or `[]` after a parse failure, and never touches the slot |
| `PartesInteressadas.PartesInteressadasService.SaveToStorage` | src/app/services/partes-interessadas.service.ts:39-45 | the slot holds the given list; list and published log unchanged |
| `PartesInteressadas.PartesInteressadasService.GetPartesInteressadas` | src/app/services/partes-interessadas.service.ts:47-49 | returns the current list, which is the last published snapshot |
| `PartesInteressadas.PartesInteressadasService.GetTotalPartesInteressadas` | src/app/services/partes-interessadas.service.ts:51-53 | returns the length of the list |
| `PartesInteressadas.PartesInteressadasService.AddParteInteressada` | src/app/services/partes-interessadas.service.ts:55-68 | appends exactly the given fields with id `agora` and returns that record; earlier records unchanged; the new list is published and stored |
| `PartesInteressadas.PartesInteressadasService.UpdateParteInteressada` | src/app/services/partes-interessadas.service.ts:70-84 | true iff some record has the id; the list becomes `Atualizada`, then published and stored; on false nothing is published or stored and the list is unchanged |
| `PartesInteressadas.PartesInteressadasService.DeleteParteInteressada` | src/app/services/partes-interessadas.service.ts:86-97 | the list becomes the records without the id; true iff some record had it; only then published and stored |
| `PartesInteressadas.PartesInteressadasService.GetParteInteressadaById` | src/app/services/partes-interessadas.service.ts:99-101 | returns the first record holding the id, or none |
| `PartesInteressadas.PartesInteressadasService.InitializeWithSampleData` | src/app/services/partes-interessadas.service.ts:104-131 | an empty list becomes the two sample records, published and stored; a non-empty one changes nothing |
| `PartesInteressadas.SemSemOcorrencia` | src/app/services/partes-interessadas.service.ts:88-92 | filtering out an id nobody holds gives back the same list, so a failed delete leaves it unchanged |
| `PartesInteressadas.SemConcat` | src/app/services/partes-interessadas.service.ts:88 | filtering distributes over concatenation: the remaining records keep their relative order |
| `PartesInteressadas.EncontrarAposAdicionar` | src/app/services/partes-interessadas.service.ts:55-68 | after add, lookup of the new id yields the new record unless an older record held that id; other lookups unchanged |
| `PartesInteressadas.AdicionarPreservaUnicidade` | src/app/services/partes-interessadas.service.ts:55-68 | an add with an unused id keeps ids distinct |
| `PartesInteressadas.MesmoInstanteRepeteId` | src/app/services/partes-interessadas.service.ts:56-59 | two adds with the same clock reading make the ids not distinct |
| `PartesInteressadas.EncontrarAposRemover` | src/app/services/partes-interessadas.service.ts:86-97 | after delete, the id is not found; lookups of other ids are unchanged |
| `PartesInteressadas.RemoverPreservaUnicidade` | src/app/services/partes-interessadas.service.ts:86-97 | delete keeps ids distinct |
| `PartesInteressadas.RemoverUnicoDiminuiUm` | src/app/services/partes-interessadas.service.ts:86-97 | with distinct ids, deleting a present id shortens the list by exactly one |
| `PartesInteressadas.AtualizadaAltera` | src/app/services/partes-interessadas.service.ts:70-81 | update keeps the length; only the first index holding the id changes, to the old record overridden by the partial; absent id leaves the list as is |
| `PartesInteressadas.AtualizarTrocaId` | src/app/services/partes-interessadas.service.ts:76 | a partial carrying another id replaces the updated record's id: the record at the first index holding the old id becomes the merge and carries the new id, which is then found; the length is kept, and with distinct ids the old id is gone |
| `PartesInteressadas.AtualizarSemIdPreserva` | src/app/services/partes-interessadas.service.ts:70-81 | a partial without id keeps ids distinct, and lookup of the id yields the merged record |
| `PartesInteressadas.SemearIdempotente` | src/app/services/partes-interessadas.service.ts:104-131 | seeding twice equals seeding once; an empty list gets ids 1 and 2, which are distinct |
| `PartesInteressadas.AmostraNaoValida` | src/app/services/partes-interessadas.service.ts:107-126 | the PF sample document fails the CPF check and the PJ sample document fails the CNPJ check, so each fails the check its own type label selects |
| `PartesInteressadas.SemearDuasVezes` | src/app/services/partes-interessadas.service.ts:104-131 | two seed calls publish and store at most once and leave the list of one call |
| `PartesInteressadas.AdicionarEBuscar` | src/app/services/partes-interessadas.service.ts:55-68 | add then get-by-id with an unused id returns the added record; distinct ids stay distinct |
| `PartesInteressadas.RemoverEBuscar` | src/app/services/partes-interessadas.service.ts:86-97 | with distinct ids, deleting a present id returns true, the count drops by one and the id is no longer found |

## Left out

- The Angular wiring is not modelled: dependency injection, the `ValidatorFn` closure and the `control.parent?.get('tipo')` lookup. The validator's two inputs are the field values.
- `localStorage` and `JSON.stringify`/`JSON.parse` are an abstract slot (`Armazenamento`). A stored text that parses to something other than a list of records (for example `null`) is not modelled.
- `console.error` logging on a failed read or write is not modelled.
- SaveToStorage: a write that throws (storage full) is caught and logged by the source; the model's write always succeeds.
- The subject's observers are not modelled; what they receive is the ghost log `publicados`, whose last entry is always the current list.
- GetPartesInteressadas: the source returns the subject's own array, so a caller's in-place change (push, splice, element assignment) alters the registry without `next` or `saveToStorage`; the model returns a value and does not capture this aliasing.
- AddParteInteressada: the source returns the record object it appended to the list (and then published and saved), so a caller's in-place change to the returned record alters the registry, and every snapshot holding it, without `next` or `saveToStorage`; the model returns a value and does not capture this aliasing.
- GetParteInteressadaById: the source returns the stored record object itself, so a caller can change a registry record in place, unpublished and unsaved; the model returns a value and does not capture this aliasing.
- Next: subscribers receive the very array the service holds, not a copy; the ghost log records values and does not capture that shared reference.
- `Date.now()` is the `agora` parameter; the clock itself is outside the model.
- Mesclar: a partial whose property is present but `undefined` overrides with `undefined` in JavaScript; the model treats a missing property and an `undefined` one alike (None keeps the old value).
- JavaScript strings are UTF-16 code units and Dafny strings are Unicode scalar values; only ASCII digits and punctuation matter to the modelled code.
- The validator keeps no state between calls; this is inherent in modelling it as a function and is not stated as a separate property.
- Components, routing, the judicial-records search client, the login and session guard, the HTTP interceptor and the number pipe are outside this model.
