/** The parking lot: vehicles of three kinds enter at the lot's current
    time, are charged by the minute according to their kind, and leave;
    the lot's clock moves forward only. Times are whole minutes and fees
    are `real`. */
module Parking {
  import opened Results

  datatype Tipo = Bike | Moto | Carro

  datatype ParkingError =
    | AlreadyParked   // a vehicle with that id is already in the lot
    | NotFound        // no vehicle with that id is in the lot
    | NegativeTime    // the clock cannot go back
    | NoEntryTime     // a fee asked of a vehicle that never entered

  // ---------------------------------------------------------------------
  // Fees
  // ---------------------------------------------------------------------

  /** The minutes between entry and exit, none when the exit is not later. */
  function Minutos(entrada: int, saida: int): (m: nat)
    ensures m >= saida - entrada
    ensures m == 0 || m == saida - entrada
  {
    if saida - entrada > 0 then saida - entrada else 0
  }

  const TarifaBike: real := 3.0
  const MinimoCarro: real := 5.0

  /** What a vehicle of the given kind owes at `saida`: a flat rate for a
      bike, a twentieth per minute for a motorcycle, and a tenth per minute
      for a car but never under the car minimum. A vehicle with no entry
      time cannot be charged. */
  function Tarifa(tipo: Tipo, entrada: Option<int>, saida: int): (r: Result<real, ParkingError>)
    ensures r.Err? <==> entrada.None?
    ensures r.Err? ==> r.error == NoEntryTime
    ensures r.Ok? ==> r.value >= 0.0
    ensures r.Ok? && tipo == Bike ==> r.value == TarifaBike
    ensures r.Ok? && tipo == Carro ==> r.value >= MinimoCarro
  {
    match entrada
    case None => Err(NoEntryTime)
    case Some(e) =>
      var minutos := Minutos(e, saida) as real;
      match tipo
      case Bike => Ok(TarifaBike)
      case Moto => Ok(minutos / 20.0)
      case Carro => Ok(if minutos / 10.0 > MinimoCarro then minutos / 10.0 else MinimoCarro)
  }

  /** Staying longer never costs less. */
  lemma TarifaMonotone(tipo: Tipo, entrada: int, s1: int, s2: int)
    requires s1 <= s2
    ensures Tarifa(tipo, Some(entrada), s1).value <= Tarifa(tipo, Some(entrada), s2).value
  {
  }

  /** Leaving at or before the entry time costs what leaving at the entry
      time costs: elapsed time is never negative. */
  lemma TarifaClamped(tipo: Tipo, entrada: int, saida: int)
    requires saida <= entrada
    ensures Tarifa(tipo, Some(entrada), saida) == Tarifa(tipo, Some(entrada), entrada)
  {
  }

  /** A car pays exactly the minimum for its first fifty minutes and a
      tenth per minute afterwards. */
  lemma TarifaCarro(entrada: int, saida: int)
    ensures saida - entrada <= 50 ==> Tarifa(Carro, Some(entrada), saida).value == MinimoCarro
    ensures saida - entrada >= 50 ==> Tarifa(Carro, Some(entrada), saida).value == (saida - entrada) as real / 10.0
  {
  }

  /** A motorcycle never pays more than a car for the same stay, and pays
      exactly half a car's fee once the stay passes fifty minutes. */
  lemma MotoBelowCarro(entrada: int, saida: int)
    ensures Tarifa(Moto, Some(entrada), saida).value <= Tarifa(Carro, Some(entrada), saida).value
    ensures saida - entrada >= 50 ==>
      Tarifa(Moto, Some(entrada), saida).value * 2.0 == Tarifa(Carro, Some(entrada), saida).value
  {
  }

  // ---------------------------------------------------------------------
  // Vehicles
  // ---------------------------------------------------------------------

  /** A vehicle: an id and a kind that never change, and the time it
      entered the lot, absent until it is parked. */
  class Veiculo {
    const id: string
    const tipo: Tipo
    var entrada: Option<int>

    constructor (id: string, tipo: Tipo)
      ensures this.id == id && this.tipo == tipo && entrada == None
    {
      this.id := id;
      this.tipo := tipo;
      entrada := None;
    }

    method SetEntrada(hora: int)
      modifies this
      ensures entrada == Some(hora)
    {
      entrada := Some(hora);
    }
  }

  /** The position of the first vehicle with the given id, or -1. */
  function Posicao(vs: seq<Veiculo>, id: string): (r: int)
    ensures -1 <= r < |vs|
    ensures r >= 0 ==> vs[r].id == id && forall k :: 0 <= k < r ==> vs[k].id != id
    ensures r == -1 <==> forall k :: 0 <= k < |vs| ==> vs[k].id != id
  {
    if vs == [] then -1
    else if vs[0].id == id then 0
    else
      var r := Posicao(vs[1..], id);
      if r == -1 then -1 else r + 1
  }

  /** No two vehicles share an id. */
  ghost predicate IdsUnicos(vs: seq<Veiculo>)
  {
    forall i, j :: 0 <= i < j < |vs| ==> vs[i].id != vs[j].id
  }

  /** Removing one vehicle keeps the ids distinct and leaves no vehicle
      with the removed id. */
  lemma RemoveKeepsUnique(vs: seq<Veiculo>, i: int)
    requires IdsUnicos(vs) && 0 <= i < |vs|
    ensures IdsUnicos(vs[..i] + vs[i + 1..])
    ensures Posicao(vs[..i] + vs[i + 1..], vs[i].id) == -1
  {
    var rest := vs[..i] + vs[i + 1..];
    assert forall k :: 0 <= k < |rest| ==> rest[k] == vs[if k < i then k else k + 1];
  }

  // ---------------------------------------------------------------------
  // The lot
  // ---------------------------------------------------------------------

  class Estacionamento {
    var veiculos: seq<Veiculo>
    var horaAtual: int

    /** The clock has not gone below zero, ids are distinct and every
        parked vehicle has an entry time. */
    ghost predicate Valid()
      reads this, veiculos
    {
      horaAtual >= 0 &&
      IdsUnicos(veiculos) &&
      forall k :: 0 <= k < |veiculos| ==> veiculos[k].entrada.Some?
    }

    constructor ()
      ensures Valid()
      ensures veiculos == [] && horaAtual == 0
    {
      veiculos := [];
      horaAtual := 0;
    }

    /** Linear search for the first vehicle with the given id. */
    method ProcurarVeiculo(id: string) returns (i: int)
      ensures i == Posicao(veiculos, id)
    {
      i := 0;
      while i < |veiculos|
        invariant 0 <= i <= |veiculos|
        invariant forall k :: 0 <= k < i ==> veiculos[k].id != id
      {
        if veiculos[i].id == id {
          return;
        }
        i := i + 1;
      }
      i := -1;
    }

    /** Parks a vehicle at the current time, unless one with its id is
        already parked. */
    method Estacionar(v: Veiculo) returns (st: Status<ParkingError>)
      requires Valid()
      modifies this, v
      ensures Valid()
      ensures horaAtual == old(horaAtual)
      ensures old(Posicao(veiculos, v.id)) >= 0 ==>
        st == Failed(AlreadyParked) && veiculos == old(veiculos) && v.entrada == old(v.entrada)
      ensures old(Posicao(veiculos, v.id)) == -1 ==>
        st == Done && veiculos == old(veiculos) + [v] && v.entrada == Some(horaAtual)
    {
      var i := ProcurarVeiculo(v.id);
      if i != -1 {
        return Failed(AlreadyParked);
      }
      v.SetEntrada(horaAtual);
      veiculos := veiculos + [v];
      st := Done;
    }

    /** The fee the vehicle with the given id owes now; nothing changes. */
    method Pagar(id: string) returns (r: Result<real, ParkingError>)
      ensures Posicao(veiculos, id) == -1 ==> r == Err(NotFound)
      ensures Posicao(veiculos, id) >= 0 ==>
        var v := veiculos[Posicao(veiculos, id)];
        r == Tarifa(v.tipo, v.entrada, horaAtual)
      ensures Valid() ==> (r.Ok? <==> Posicao(veiculos, id) >= 0)
    {
      var i := ProcurarVeiculo(id);
      if i == -1 {
        return Err(NotFound);
      }
      var v := veiculos[i];
      r := Tarifa(v.tipo, v.entrada, horaAtual);
    }

    /** Charges the vehicle with the given id and removes it, keeping the
        others in their order. */
    method Sair(id: string) returns (r: Result<real, ParkingError>)
      requires Valid()
      modifies this
      ensures Valid()
      ensures horaAtual == old(horaAtual)
      ensures old(Posicao(veiculos, id)) == -1 ==> r == Err(NotFound) && veiculos == old(veiculos)
      ensures old(Posicao(veiculos, id)) >= 0 ==>
        var i := old(Posicao(veiculos, id));
        var v := old(veiculos[i]);
        r == Tarifa(v.tipo, v.entrada, horaAtual) && r.Ok? &&
        veiculos == old(veiculos[..i] + veiculos[i + 1..])
      ensures Posicao(veiculos, id) == -1
    {
      var i := ProcurarVeiculo(id);
      if i == -1 {
        return Err(NotFound);
      }
      var v := veiculos[i];
      r := Tarifa(v.tipo, v.entrada, horaAtual);
      if r.Err? {
        return;
      }
      RemoveKeepsUnique(veiculos, i);
      veiculos := veiculos[..i] + veiculos[i + 1..];
    }

    /** Moves the clock forward; it never goes back. */
    method PassarTempo(tempo: int) returns (st: Status<ParkingError>)
      requires Valid()
      modifies this
      ensures Valid()
      ensures veiculos == old(veiculos)
      ensures tempo < 0 ==> st == Failed(NegativeTime) && horaAtual == old(horaAtual)
      ensures tempo >= 0 ==> st == Done && horaAtual == old(horaAtual) + tempo
      ensures horaAtual >= old(horaAtual)
    {
      if tempo < 0 {
        return Failed(NegativeTime);
      }
      horaAtual := horaAtual + tempo;
      st := Done;
    }
  }
}
