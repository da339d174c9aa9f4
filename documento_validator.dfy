/**
 * Model of DocumentoValidator.validarDocumento: the form-field validator for
 * the document field. The closure reads the field's value and its sibling
 * `tipo` field; here both are its inputs, None standing for an absent value.
 */
module DocumentoValidator {
  import opened Options
  import V = Validacao
  import L = ValidacaoLemas

  /** The `documentoInvalido` error object. */
  datatype DocumentoInvalido = DocumentoInvalido(value: string, tipo: string, message: string)

  /** JavaScript truthiness of a text form value: absent and "" are falsy. */
  predicate Preenchido(v: Option<string>) {
    v.Some? && v.value != ""
  }

  /** The closure's result: None is `null` (no error). */
  function ValidarDocumento(documento: Option<string>, tipo: Option<string>): (erro: Option<DocumentoInvalido>)
    ensures !Preenchido(documento) || !Preenchido(tipo) ==> erro == None
    ensures Preenchido(documento) && Preenchido(tipo) ==>
      (erro == None <==> V.DocumentoValido(documento.value, tipo.value))
    ensures erro.Some? ==>
      documento.Some? && tipo.Some? &&
      erro.value.value == documento.value && erro.value.tipo == tipo.value &&
      erro.value.message == (if tipo.value == "PF" then "CPF inválido" else "CNPJ inválido")
  {
    if !Preenchido(documento) || !Preenchido(tipo) then None
    else if !V.DocumentoValido(documento.value, tipo.value) then
      Some(DocumentoInvalido(documento.value, tipo.value,
                             if tipo.value == "PF" then "CPF inválido" else "CNPJ inválido"))
    else None
  }

  /**
   * The submit path formats a document that passed the validator; the
   * formatted text passes it again, so storing it does not make the field invalid.
   */
  lemma ValidadorAceitaFormatado(documento: string, tipo: string)
    requires documento != "" && tipo != ""
    requires ValidarDocumento(Some(documento), Some(tipo)) == None
    ensures V.FormatarDocumento(documento, tipo) != ""
    ensures ValidarDocumento(Some(V.FormatarDocumento(documento, tipo)), Some(tipo)) == None
  {
    L.FormatarPreservaValidade(documento, tipo, tipo);
    L.FormatarPreservaDigitos(documento, tipo);
  }

  /**
   * Punctuation typed into a non-empty document never decides whether the
   * field is reported. The empty field is the exception: see
   * PontuacaoEmCampoVazio.
   */
  lemma ValidadorIgnoraPontuacao(a: string, c: char, b: string, tipo: Option<string>)
    requires !V.EhDigito(c) && a + b != ""
    ensures ValidarDocumento(Some(a + [c] + b), tipo).None? == ValidarDocumento(Some(a + b), tipo).None?
  {
    if tipo.Some? {
      L.SoDigitosImportam(a, c, b, tipo.value);
    }
  }

  /**
   * On an empty field a typed separator alone decides: the empty text is
   * falsy and not checked, while a lone non-digit is checked and, having no
   * digits, fails for every type.
   */
  lemma PontuacaoEmCampoVazio(c: char, tipo: string)
    requires !V.EhDigito(c) && tipo != ""
    ensures ValidarDocumento(Some(""), Some(tipo)).None?
    ensures ValidarDocumento(Some([c]), Some(tipo)).Some?
  {
  }
}
