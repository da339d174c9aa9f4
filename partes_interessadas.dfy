/**
 * Model of PartesInteressadasService: the in-memory, ordered list of parties,
 * republished and written to one storage slot after every change.
 *
 * The list is the current value of the service's subject. The snapshots the
 * subject has emitted and the contents of the storage slot are ghost state:
 * they are what subscribers and the next session would see.
 */
module PartesInteressadas {
  import opened Options
  import opened Validacao
  import opened ValidacaoLemas

  datatype Tipo = PF | PJ

  /** The `tipo` field as stored: 'PF' or 'PJ'. */
  function Rotulo(t: Tipo): string {
    match t
    case PF => "PF"
    case PJ => "PJ"
  }

  datatype ParteInteressada = ParteInteressada(
    id: int,
    nome: string,
    tipo: Tipo,
    documento: string,
    email: string,
    telefone: string,
    endereco: string)

  /** `Omit<ParteInteressada, 'id'>`: what `addParteInteressada` receives. */
  datatype DadosParte = DadosParte(
    nome: string,
    tipo: Tipo,
    documento: string,
    email: string,
    telefone: string,
    endereco: string)

  /** `Partial<ParteInteressada>`: None is a property the object does not carry. */
  datatype ParteParcial = ParteParcial(
    id: Option<int>,
    nome: Option<string>,
    tipo: Option<Tipo>,
    documento: Option<string>,
    email: Option<string>,
    telefone: Option<string>,
    endereco: Option<string>)

  /** What the storage slot under the key 'partes_interessadas' holds. */
  datatype Armazenamento =
    | Vazio                                  // no entry, or an empty string
    | Corrompido                             // reading threw: JSON.parse rejected the text, or getItem itself failed
    | Gravado(partes: seq<ParteInteressada>) // a serialized list

  // ---------------------------------------------------------------------------
  // The list operations the service performs
  // ---------------------------------------------------------------------------

  /** A record without its id. */
  function SemIdDe(p: ParteInteressada): DadosParte {
    DadosParte(p.nome, p.tipo, p.documento, p.email, p.telefone, p.endereco)
  }

  /** `{...parte, id}`: the new record with its assigned id. */
  function ComId(parte: DadosParte, id: int): (r: ParteInteressada)
    ensures r.id == id && SemIdDe(r) == parte
  {
    ParteInteressada(id, parte.nome, parte.tipo, parte.documento, parte.email, parte.telefone, parte.endereco)
  }

  function Sobrepor<T>(atual: T, novo: Option<T>): T {
    match novo
    case Some(v) => v
    case None => atual
  }

  /** `q` has every property the partial carries, with the partial's value. */
  predicate Carrega(q: ParteInteressada, parcial: ParteParcial) {
    (parcial.id.Some? ==> q.id == parcial.id.value) &&
    (parcial.nome.Some? ==> q.nome == parcial.nome.value) &&
    (parcial.tipo.Some? ==> q.tipo == parcial.tipo.value) &&
    (parcial.documento.Some? ==> q.documento == parcial.documento.value) &&
    (parcial.email.Some? ==> q.email == parcial.email.value) &&
    (parcial.telefone.Some? ==> q.telefone == parcial.telefone.value) &&
    (parcial.endereco.Some? ==> q.endereco == parcial.endereco.value)
  }

  /** `q` and `p` agree on every property the partial does not carry. */
  predicate ConcordaFora(q: ParteInteressada, p: ParteInteressada, parcial: ParteParcial) {
    (parcial.id.None? ==> q.id == p.id) &&
    (parcial.nome.None? ==> q.nome == p.nome) &&
    (parcial.tipo.None? ==> q.tipo == p.tipo) &&
    (parcial.documento.None? ==> q.documento == p.documento) &&
    (parcial.email.None? ==> q.email == p.email) &&
    (parcial.telefone.None? ==> q.telefone == p.telefone) &&
    (parcial.endereco.None? ==> q.endereco == p.endereco)
  }

  /** `{...p, ...parcial}`: every property the partial carries overrides the record's, the id included. */
  function Mesclar(p: ParteInteressada, parcial: ParteParcial): (r: ParteInteressada)
    ensures Carrega(r, parcial) && ConcordaFora(r, p, parcial)
    ensures Carrega(p, parcial) ==> r == p
  {
    ParteInteressada(
      Sobrepor(p.id, parcial.id),
      Sobrepor(p.nome, parcial.nome),
      Sobrepor(p.tipo, parcial.tipo),
      Sobrepor(p.documento, parcial.documento),
      Sobrepor(p.email, parcial.email),
      Sobrepor(p.telefone, parcial.telefone),
      Sobrepor(p.endereco, parcial.endereco))
  }

  predicate TemId(ps: seq<ParteInteressada>, id: int) {
    exists i :: 0 <= i < |ps| && ps[i].id == id
  }

  /** `ps.findIndex(p => p.id === id)`: the first index holding `id`, or -1. */
  function IndiceDe(ps: seq<ParteInteressada>, id: int): (k: int)
    ensures -1 <= k < |ps|
    ensures k == -1 <==> !TemId(ps, id)
    ensures k >= 0 ==> ps[k].id == id && forall i :: 0 <= i < k ==> ps[i].id != id
  {
    if ps == [] then -1
    else if ps[0].id == id then 0
    else
      var k := IndiceDe(ps[1..], id);
      if k == -1 then -1 else k + 1
  }

  /** `ps.find(p => p.id === id)`: the first record holding `id`, if any. */
  function Encontrar(ps: seq<ParteInteressada>, id: int): (r: Option<ParteInteressada>)
    ensures r == None <==> !TemId(ps, id)
    ensures r.Some? ==> r.value.id == id && r.value in ps
    ensures r.Some? ==> exists k :: 0 <= k < |ps| && ps[k] == r.value && forall i :: 0 <= i < k ==> ps[i].id != id
  {
    var k := IndiceDe(ps, id);
    if k == -1 then None else Some(ps[k])
  }

  /** `ps.filter(p => p.id !== id)`. */
  function Sem(ps: seq<ParteInteressada>, id: int): (r: seq<ParteInteressada>)
    ensures |r| <= |ps|
    ensures forall p :: p in r <==> p in ps && p.id != id
    ensures |r| == |ps| <==> !TemId(ps, id)
  {
    if ps == [] then []
    else
      var resto := Sem(ps[1..], id);
      assert TemId(ps, id) <==> ps[0].id == id || TemId(ps[1..], id) by {
        if TemId(ps[1..], id) {
          var i :| 0 <= i < |ps[1..]| && ps[1..][i].id == id;
          assert ps[i + 1].id == id;
        }
        if TemId(ps, id) && ps[0].id != id {
          var i :| 0 <= i < |ps| && ps[i].id == id;
          assert ps[1..][i - 1].id == id;
        }
      }
      if ps[0].id != id then [ps[0]] + resto else resto
  }

  /** The list `updateParteInteressada(id, parcial)` leaves behind. */
  function Atualizada(ps: seq<ParteInteressada>, id: int, parcial: ParteParcial): seq<ParteInteressada> {
    var k := IndiceDe(ps, id);
    if k == -1 then ps else ps[k := Mesclar(ps[k], parcial)]
  }

  /** The records `initializeWithSampleData` installs. */
  function Amostra(): seq<ParteInteressada> {
    [ ParteInteressada(1, "João Silva", PF, "123.456.789-00", "joao@email.com",
                       "(11) 99999-9999", "Rua das Flores, 123 - São Paulo/SP"),
      ParteInteressada(2, "Empresa ABC Ltda", PJ, "12.345.678/0001-90", "contato@abc.com",
                       "(11) 3333-3333", "Av. Paulista, 1000 - São Paulo/SP") ]
  }

  /** The list `initializeWithSampleData` leaves behind. */
  function Semeada(ps: seq<ParteInteressada>): seq<ParteInteressada> {
    if |ps| == 0 then Amostra() else ps
  }

  // ---------------------------------------------------------------------------
  // The service
  // ---------------------------------------------------------------------------

  class PartesInteressadasService {
    /** The current value of `partesInteressadasSubject`. */
    var partes: seq<ParteInteressada>
    /** Every snapshot the subject has emitted, oldest first; the first is its initial `[]`. */
    ghost var publicados: seq<seq<ParteInteressada>>
    /** The storage slot under the key 'partes_interessadas'. */
    ghost var armazenado: Armazenamento

    /** A subject's current value is the last value it emitted. */
    ghost predicate Valid()
      reads this
    {
      |publicados| > 0 && publicados[|publicados| - 1] == partes
    }

    /** The slot holds exactly the in-memory list. */
    ghost predicate Sincronizado()
      reads this
    {
      armazenado == Gravado(partes)
    }

    /** `lido` is what the storage slot held when the service was created. */
    constructor (lido: Armazenamento)
      ensures Valid()
      ensures armazenado == lido
      ensures partes == (if lido.Gravado? then lido.partes else [])
      ensures publicados == (if lido.Vazio? then [[]] else [[], partes])
    {
      partes := [];
      publicados := [[]];
      armazenado := lido;
      new;
      LoadFromStorage(lido);
    }

    /** `subject.next(ps)`. */
    method Next(ps: seq<ParteInteressada>)
      requires Valid()
      modifies this
      ensures Valid()
      ensures partes == ps && publicados == old(publicados) + [ps]
      ensures armazenado == old(armazenado)
    {
      partes := ps;
      publicados := publicados + [ps];
    }

    /** A parse failure is logged and replaced by an empty list; an empty slot changes nothing. */
    method LoadFromStorage(lido: Armazenamento)
      requires Valid()
      modifies this
      ensures Valid()
      ensures armazenado == old(armazenado)
      ensures lido.Vazio? ==> partes == old(partes) && publicados == old(publicados)
      ensures lido.Corrompido? ==> partes == [] && publicados == old(publicados) + [[]]
      ensures lido.Gravado? ==> partes == lido.partes && publicados == old(publicados) + [lido.partes]
    {
      match lido
      case Vazio =>
      case Corrompido =>
        Next([]);
      case Gravado(ps) =>
        Next(ps);
    }

    method SaveToStorage(ps: seq<ParteInteressada>)
      modifies this
      ensures armazenado == Gravado(ps)
      ensures partes == old(partes) && publicados == old(publicados)
    {
      armazenado := Gravado(ps);
    }

    method GetPartesInteressadas() returns (r: seq<ParteInteressada>)
      requires Valid()
      ensures r == partes
      ensures r == publicados[|publicados| - 1]
    {
      r := partes;
    }

    method GetTotalPartesInteressadas() returns (total: nat)
      ensures total == |partes|
    {
      total := |partes|;
    }

    /** `agora` is the value of `Date.now()` at the call. */
    method AddParteInteressada(parte: DadosParte, agora: int) returns (nova: ParteInteressada)
      requires Valid()
      modifies this
      ensures Valid() && Sincronizado()
      ensures nova == ComId(parte, agora)
      ensures partes == old(partes) + [nova]
      ensures publicados == old(publicados) + [partes]
    {
      nova := ComId(parte, agora);
      var atualizadas := partes + [nova];
      Next(atualizadas);
      SaveToStorage(atualizadas);
    }

    method UpdateParteInteressada(id: int, parte: ParteParcial) returns (ok: bool)
      requires Valid()
      modifies this
      ensures Valid()
      ensures ok <==> TemId(old(partes), id)
      ensures partes == Atualizada(old(partes), id, parte)
      ensures ok ==> Sincronizado() && publicados == old(publicados) + [partes]
      ensures !ok ==> publicados == old(publicados) && armazenado == old(armazenado)
    {
      var index := IndiceDe(partes, id);
      if index != -1 {
        var atualizadas := partes[index := Mesclar(partes[index], parte)];
        Next(atualizadas);
        SaveToStorage(atualizadas);
        return true;
      }
      return false;
    }

    method DeleteParteInteressada(id: int) returns (ok: bool)
      requires Valid()
      modifies this
      ensures Valid()
      ensures ok <==> TemId(old(partes), id)
      ensures partes == Sem(old(partes), id)
      ensures ok ==> Sincronizado() && publicados == old(publicados) + [partes]
      ensures !ok ==> publicados == old(publicados) && armazenado == old(armazenado)
    {
      var atualizadas := Sem(partes, id);
      if |atualizadas| != |partes| {
        Next(atualizadas);
        SaveToStorage(atualizadas);
        return true;
      }
      SemSemOcorrencia(partes, id);
      return false;
    }

    method GetParteInteressadaById(id: int) returns (r: Option<ParteInteressada>)
      ensures r == Encontrar(partes, id)
    {
      r := Encontrar(partes, id);
    }

    method InitializeWithSampleData()
      requires Valid()
      modifies this
      ensures Valid()
      ensures partes == Semeada(old(partes))
      ensures |old(partes)| == 0 ==> Sincronizado() && publicados == old(publicados) + [Amostra()]
      ensures |old(partes)| != 0 ==> publicados == old(publicados) && armazenado == old(armazenado)
    {
      if |partes| == 0 {
        var sampleData := Amostra();
        Next(sampleData);
        SaveToStorage(sampleData);
      }
    }
  }

  // ---------------------------------------------------------------------------
  // Properties of the list operations
  // ---------------------------------------------------------------------------

  /** Filtering out an id nobody holds gives back the same list. */
  lemma {:induction false} SemSemOcorrencia(ps: seq<ParteInteressada>, id: int)
    requires !TemId(ps, id)
    ensures Sem(ps, id) == ps
  {
    if ps != [] {
      assert ps[0].id != id;
      assert !TemId(ps[1..], id);
      SemSemOcorrencia(ps[1..], id);
      assert Sem(ps, id) == [ps[0]] + Sem(ps[1..], id);
      assert ps == [ps[0]] + ps[1..];
    }
  }

  /** No two records share an id. */
  ghost predicate IdsUnicos(ps: seq<ParteInteressada>) {
    forall i, j :: 0 <= i < j < |ps| ==> ps[i].id != ps[j].id
  }

  /** Filtering keeps the order of what remains: it distributes over concatenation. */
  lemma {:induction false} SemConcat(a: seq<ParteInteressada>, b: seq<ParteInteressada>, id: int)
    ensures Sem(a + b, id) == Sem(a, id) + Sem(b, id)
  {
    if a == [] {
      assert a + b == b;
    } else {
      assert (a + b)[0] == a[0];
      assert (a + b)[1..] == a[1..] + b;
      SemConcat(a[1..], b, id);
    }
  }

  lemma {:induction false} IndiceDeAcrescentar(ps: seq<ParteInteressada>, r: ParteInteressada, id: int)
    ensures IndiceDe(ps + [r], id) ==
      if TemId(ps, id) then IndiceDe(ps, id) else if r.id == id then |ps| else -1
  {
    if ps != [] {
      assert (ps + [r])[1..] == ps[1..] + [r];
      IndiceDeAcrescentar(ps[1..], r, id);
      if ps[0].id != id {
        assert TemId(ps, id) <==> TemId(ps[1..], id) by {
          if TemId(ps, id) {
            var i :| 0 <= i < |ps| && ps[i].id == id;
            assert ps[1..][i - 1].id == id;
          }
        }
      }
    }
  }

  /**
   * After `add`, looking up the assigned id finds the new record unless an
   * older record already held that id, in which case the older one is found;
   * lookups of every other id are unaffected.
   */
  lemma EncontrarAposAdicionar(ps: seq<ParteInteressada>, parte: DadosParte, agora: int, id: int)
    ensures Encontrar(ps + [ComId(parte, agora)], agora) ==
      if TemId(ps, agora) then Encontrar(ps, agora) else Some(ComId(parte, agora))
    ensures id != agora ==> Encontrar(ps + [ComId(parte, agora)], id) == Encontrar(ps, id)
  {
    var r := ComId(parte, agora);
    IndiceDeAcrescentar(ps, r, agora);
    IndiceDeAcrescentar(ps, r, id);
    if TemId(ps, id) {
      assert (ps + [r])[IndiceDe(ps, id)] == ps[IndiceDe(ps, id)];
    }
    if TemId(ps, agora) {
      assert (ps + [r])[IndiceDe(ps, agora)] == ps[IndiceDe(ps, agora)];
    }
  }

  /** A fresh id keeps the ids distinct. */
  lemma AdicionarPreservaUnicidade(ps: seq<ParteInteressada>, parte: DadosParte, agora: int)
    requires IdsUnicos(ps) && !TemId(ps, agora)
    ensures IdsUnicos(ps + [ComId(parte, agora)])
  {
  }

  /** Two records added with the same clock reading share their id. */
  lemma MesmoInstanteRepeteId(ps: seq<ParteInteressada>, a: DadosParte, b: DadosParte, agora: int)
    ensures !IdsUnicos(ps + [ComId(a, agora)] + [ComId(b, agora)])
  {
    var qs := ps + [ComId(a, agora)] + [ComId(b, agora)];
    assert qs[|ps|].id == qs[|ps| + 1].id;
  }

  /** After `delete(id)` no record holds `id`, and lookups of other ids are unaffected. */
  lemma {:induction false} EncontrarAposRemover(ps: seq<ParteInteressada>, id: int, outro: int)
    ensures Encontrar(Sem(ps, id), id) == None
    ensures outro != id ==> Encontrar(Sem(ps, id), outro) == Encontrar(ps, outro)
  {
    if ps != [] && outro != id {
      EncontrarAposRemover(ps[1..], id, outro);
      if ps[0].id != id {
        assert Sem(ps, id) == [ps[0]] + Sem(ps[1..], id);
        IndiceDeAcrescentarInicio(ps[0], Sem(ps[1..], id), outro);
      }
      IndiceDeAcrescentarInicio(ps[0], ps[1..], outro);
      assert ps == [ps[0]] + ps[1..];
    }
  }

  lemma IndiceDeAcrescentarInicio(p: ParteInteressada, ps: seq<ParteInteressada>, id: int)
    ensures Encontrar([p] + ps, id) == if p.id == id then Some(p) else Encontrar(ps, id)
  {
    assert ([p] + ps)[1..] == ps;
  }

  /** The tail of a list with distinct ids has distinct ids, none equal to the head's. */
  lemma IdsUnicosCauda(ps: seq<ParteInteressada>)
    requires IdsUnicos(ps) && ps != []
    ensures IdsUnicos(ps[1..])
    ensures forall q :: q in ps[1..] ==> q.id != ps[0].id
  {
    forall q | q in ps[1..]
      ensures q.id != ps[0].id
    {
      var k :| 0 <= k < |ps[1..]| && ps[1..][k] == q;
      assert ps[k + 1] == q;
    }
  }

  /** A record whose id no record of a distinct-id list holds can be put in front. */
  lemma IdsUnicosPrefixar(p: ParteInteressada, ps: seq<ParteInteressada>)
    requires IdsUnicos(ps)
    requires forall q :: q in ps ==> q.id != p.id
    ensures IdsUnicos([p] + ps)
  {
    var qs := [p] + ps;
    forall i, j | 0 <= i < j < |qs|
      ensures qs[i].id != qs[j].id
    {
      assert qs[j] == ps[j - 1];
      if i > 0 {
        assert qs[i] == ps[i - 1];
      }
    }
  }

  /** Filtering keeps the ids distinct. */
  lemma {:induction false} RemoverPreservaUnicidade(ps: seq<ParteInteressada>, id: int)
    requires IdsUnicos(ps)
    ensures IdsUnicos(Sem(ps, id))
  {
    if ps != [] {
      IdsUnicosCauda(ps);
      RemoverPreservaUnicidade(ps[1..], id);
      if ps[0].id != id {
        IdsUnicosPrefixar(ps[0], Sem(ps[1..], id));
      }
    }
  }

  /** When ids are distinct, deleting a present id removes exactly one record. */
  lemma {:induction false} RemoverUnicoDiminuiUm(ps: seq<ParteInteressada>, id: int)
    requires IdsUnicos(ps) && TemId(ps, id)
    ensures |Sem(ps, id)| == |ps| - 1
  {
    if ps[0].id == id {
      assert !TemId(ps[1..], id);
    } else {
      var i :| 0 <= i < |ps| && ps[i].id == id;
      assert ps[1..][i - 1].id == id;
      RemoverUnicoDiminuiUm(ps[1..], id);
    }
  }

  /**
   * `update(id, parcial)` changes only the first record holding `id`, which
   * becomes that record overridden by the partial; the length and every other
   * position stay as they were. Without such a record the list is unchanged.
   */
  lemma AtualizadaAltera(ps: seq<ParteInteressada>, id: int, parcial: ParteParcial)
    ensures var r := Atualizada(ps, id, parcial);
      |r| == |ps| &&
      (!TemId(ps, id) ==> r == ps) &&
      (TemId(ps, id) ==>
        exists k :: 0 <= k < |ps| && ps[k].id == id && (forall i :: 0 <= i < k ==> ps[i].id != id) &&
          r[k] == Mesclar(ps[k], parcial) && forall i :: 0 <= i < |ps| && i != k ==> r[i] == ps[i])
  {
  }

  /**
   * A partial that carries an id replaces the record's id: ids are not
   * immutable under `update`. With distinct ids, the old id is then gone.
   */
  lemma AtualizarTrocaId(ps: seq<ParteInteressada>, id: int, parcial: ParteParcial)
    requires TemId(ps, id) && parcial.id.Some? && parcial.id.value != id
    ensures |Atualizada(ps, id, parcial)| == |ps|
    ensures Atualizada(ps, id, parcial)[IndiceDe(ps, id)] == Mesclar(ps[IndiceDe(ps, id)], parcial)
    ensures Atualizada(ps, id, parcial)[IndiceDe(ps, id)].id == parcial.id.value
    ensures Encontrar(Atualizada(ps, id, parcial), parcial.id.value).Some?
    ensures IdsUnicos(ps) ==> !TemId(Atualizada(ps, id, parcial), id)
  {
  }

  /** A partial without an id, applied to a registry with distinct ids, keeps them distinct and keeps the record findable. */
  lemma AtualizarSemIdPreserva(ps: seq<ParteInteressada>, id: int, parcial: ParteParcial)
    requires IdsUnicos(ps) && parcial.id.None?
    ensures IdsUnicos(Atualizada(ps, id, parcial))
    ensures TemId(ps, id) ==> Encontrar(Atualizada(ps, id, parcial), id) == Some(Mesclar(Encontrar(ps, id).value, parcial))
  {
    var r := Atualizada(ps, id, parcial);
    assert forall i :: 0 <= i < |ps| ==> r[i].id == ps[i].id;
    if TemId(ps, id) {
      var k := IndiceDe(ps, id);
      assert IndiceDe(r, id) == k by {
        assert r[k].id == id;
        assert forall i :: 0 <= i < k ==> r[i].id != id;
      }
    }
  }

  /** Seeding twice leaves the same list as seeding once; the sample ids are distinct. */
  lemma SemearIdempotente(ps: seq<ParteInteressada>)
    ensures Semeada(Semeada(ps)) == Semeada(ps)
    ensures |ps| == 0 ==> |Semeada(ps)| == 2 && Semeada(ps)[0].id == 1 && Semeada(ps)[1].id == 2
    ensures IdsUnicos(Amostra())
  {
  }

  // ---------------------------------------------------------------------------
  // Call sequences on one service
  // ---------------------------------------------------------------------------

  /** Seeding twice leaves the list, the emitted snapshots and the slot as seeding once does. */
  method SemearDuasVezes(s: PartesInteressadasService)
    requires s.Valid()
    modifies s
    ensures s.Valid()
    ensures s.partes == Semeada(old(s.partes))
    ensures |old(s.partes)| == 0 ==> s.publicados == old(s.publicados) + [Amostra()] && s.Sincronizado()
    ensures |old(s.partes)| != 0 ==> s.publicados == old(s.publicados) && s.armazenado == old(s.armazenado)
  {
    s.InitializeWithSampleData();
    s.InitializeWithSampleData();
  }

  /** `add` followed by `getById` with the returned id finds the added record when the clock reading was unused. */
  method AdicionarEBuscar(s: PartesInteressadasService, parte: DadosParte, agora: int)
    returns (nova: ParteInteressada, achada: Option<ParteInteressada>)
    requires s.Valid() && !TemId(s.partes, agora)
    modifies s
    ensures s.Valid() && s.Sincronizado()
    ensures nova == ComId(parte, agora) && achada == Some(nova)
    ensures IdsUnicos(old(s.partes)) ==> IdsUnicos(s.partes)
  {
    ghost var antes := s.partes;
    nova := s.AddParteInteressada(parte, agora);
    EncontrarAposAdicionar(antes, parte, agora, agora);
    if IdsUnicos(antes) {
      AdicionarPreservaUnicidade(antes, parte, agora);
    }
    achada := s.GetParteInteressadaById(nova.id);
  }

  /** With distinct ids, deleting a present id drops the count by one and the id can no longer be found. */
  method RemoverEBuscar(s: PartesInteressadasService, id: int)
    returns (ok: bool, total: nat, achada: Option<ParteInteressada>)
    requires s.Valid() && IdsUnicos(s.partes) && TemId(s.partes, id)
    modifies s
    ensures s.Valid() && s.Sincronizado() && IdsUnicos(s.partes)
    ensures ok && total == |old(s.partes)| - 1 && achada == None
  {
    ghost var antes := s.partes;
    ok := s.DeleteParteInteressada(id);
    RemoverUnicoDiminuiUm(antes, id);
    EncontrarAposRemover(antes, id, id);
    RemoverPreservaUnicidade(antes, id);
    total := s.GetTotalPartesInteressadas();
    achada := s.GetParteInteressadaById(id);
  }

  // ---------------------------------------------------------------------------
  // The sample documents
  // ---------------------------------------------------------------------------

  lemma CpfDaAmostraInvalido(doc: string)
    requires doc == "123.456.789-00"
    ensures !CpfValido(doc)
  {
    var n := "12345678900";
    assert n == "123" + "456" + "789" + "00" + "";
    MascaraCpfPartes("123", "456", "789", "00", "");
    assert doc == MascaraCpf(n);
    ValoresAmostraCpf(n);
    LimparMascaraCpf(n);
    DigitoCpfAmostra(Valores(n));
  }

  lemma ValoresAmostraCpf(n: string)
    requires n == "12345678900"
    ensures SoDigitos(n) && |n| == 11 && Valores(n) == [1, 2, 3, 4, 5, 6, 7, 8, 9, 0, 0]
  {
  }

  lemma DigitoCpfAmostra(d: seq<int>)
    requires d == [1, 2, 3, 4, 5, 6, 7, 8, 9, 0, 0]
    ensures DigitoCpf(SomaCpf(d, 10, 11)) == 9
  {
    assert SomaCpf(d, 1, 11) == 11;
    assert SomaCpf(d, 2, 11) == 31;
    assert SomaCpf(d, 3, 11) == 58;
    assert SomaCpf(d, 4, 11) == 90;
    assert SomaCpf(d, 5, 11) == 125;
    assert SomaCpf(d, 6, 11) == 161;
    assert SomaCpf(d, 7, 11) == 196;
    assert SomaCpf(d, 8, 11) == 228;
    assert SomaCpf(d, 9, 11) == 255;
    assert SomaCpf(d, 10, 11) == 255;
  }

  lemma CnpjDaAmostraInvalido(doc: string)
    requires doc == "12.345.678/0001-90"
    ensures !CnpjValido(doc)
  {
    LimparAmostraCnpj(doc);
    ValoresAmostraCnpj(Limpar(doc));
    DigitosCnpjAmostra(Valores(Limpar(doc))[..12]);
  }

  lemma LimparAmostraCnpj(doc: string)
    requires doc == "12.345.678/0001-90"
    ensures Limpar(doc) == "12345678000190"
  {
    var n := "12345678000190";
    assert n == "12" + "345" + "678" + "0001" + "90" + "";
    MascaraCnpjPartes("12", "345", "678", "0001", "90", "");
    assert doc == MascaraCnpj(n);
    ValoresAmostraCnpj(n);
    LimparMascaraCnpj(n);
  }

  lemma ValoresAmostraCnpj(n: string)
    requires n == "12345678000190"
    ensures SoDigitos(n) && |n| == 14
    ensures Valores(n)[..12] == [1, 2, 3, 4, 5, 6, 7, 8, 0, 0, 0, 1]
    ensures Valores(n)[12] == 9 && Valores(n)[13] == 0
  {
    assert Valores(n) == [1, 2, 3, 4, 5, 6, 7, 8, 0, 0, 0, 1, 9, 0];
  }

  lemma DigitosCnpjAmostra(base: seq<int>)
    requires base == [1, 2, 3, 4, 5, 6, 7, 8, 0, 0, 0, 1]
    ensures DigitoCnpj(base) == 9 && DigitoCnpj(base + [9]) == 5
  {
    PesosOficiaisCnpj();
    assert SomaCnpj(base, 1) == 5;
    assert SomaCnpj(base, 2) == 13;
    assert SomaCnpj(base, 3) == 22;
    assert SomaCnpj(base, 4) == 30;
    assert SomaCnpj(base, 5) == 75;
    assert SomaCnpj(base, 6) == 123;
    assert SomaCnpj(base, 7) == 172;
    assert SomaCnpj(base, 8) == 220;
    assert SomaCnpj(base, 9) == 220;
    assert SomaCnpj(base, 10) == 220;
    assert SomaCnpj(base, 11) == 220;
    assert SomaCnpj(base, 12) == 222;
    var base1 := base + [9];
    assert base1 == [1, 2, 3, 4, 5, 6, 7, 8, 0, 0, 0, 1, 9];
    assert SomaCnpj(base1, 1) == 6;
    assert SomaCnpj(base1, 2) == 16;
    assert SomaCnpj(base1, 3) == 28;
    assert SomaCnpj(base1, 4) == 40;
    assert SomaCnpj(base1, 5) == 50;
    assert SomaCnpj(base1, 6) == 104;
    assert SomaCnpj(base1, 7) == 160;
    assert SomaCnpj(base1, 8) == 216;
    assert SomaCnpj(base1, 9) == 216;
    assert SomaCnpj(base1, 10) == 216;
    assert SomaCnpj(base1, 11) == 216;
    assert SomaCnpj(base1, 12) == 219;
    assert SomaCnpj(base1, 13) == 237;
  }

  /** The two sample records carry documents that fail their own check digits. */
  lemma AmostraNaoValida()
    ensures !CpfValido(Amostra()[0].documento) && Amostra()[0].tipo == PF
    ensures !CnpjValido(Amostra()[1].documento) && Amostra()[1].tipo == PJ
    ensures !DocumentoValido(Amostra()[0].documento, Rotulo(Amostra()[0].tipo))
    ensures !DocumentoValido(Amostra()[1].documento, Rotulo(Amostra()[1].tipo))
  {
    var a := Amostra();
    CpfDaAmostraInvalido(a[0].documento);
    CnpjDaAmostraInvalido(a[1].documento);
    assert Rotulo(PJ) != "PF" by {
      assert Rotulo(PJ)[1] != "PF"[1];
    }
  }
}
