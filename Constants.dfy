/** The enumerations shared by every view and their display tables. */
module Constants {

  /** Menu categories, `lib/constants.ts`. */
  datatype Categoria = ENTRADA | PLATO_PRINCIPAL | POSTRES | BEBIDAS

  /** Order states, `lib/constants.ts`. */
  datatype Estado = PENDIENTE | EN_PROCESO | PREPARADO | ENTREGADO | CANCELADO

  const CATEGORIAS: seq<Categoria> := [ENTRADA, PLATO_PRINCIPAL, POSTRES, BEBIDAS]

  const ESTADOS: seq<Estado> := [PENDIENTE, EN_PROCESO, PREPARADO, ENTREGADO, CANCELADO]

  /** Badge classes per state. */
  const ESTADO_COLORS: map<Estado, string> := map[
    PENDIENTE := "bg-yellow-100 text-yellow-800 border-yellow-200",
    EN_PROCESO := "bg-blue-100 text-blue-800 border-blue-200",
    PREPARADO := "bg-purple-100 text-purple-800 border-purple-200",
    ENTREGADO := "bg-green-100 text-green-800 border-green-200",
    CANCELADO := "bg-red-100 text-red-800 border-red-200"
  ]

  /** Human-readable label per state. */
  const ESTADO_LABELS: map<Estado, string> := map[
    PENDIENTE := "Pendiente",
    EN_PROCESO := "En Proceso",
    PREPARADO := "Preparado",
    ENTREGADO := "Entregado",
    CANCELADO := "Cancelado"
  ]

  /** The five states, listed once each, and nothing else. */
  lemma EstadosAreFive()
    ensures forall e: Estado :: e in ESTADOS
    ensures |ESTADOS| == 5
    ensures forall i, j :: 0 <= i < j < |ESTADOS| ==> ESTADOS[i] != ESTADOS[j]
  {
    forall e: Estado ensures e in ESTADOS {
      match e
      case PENDIENTE => assert ESTADOS[0] == e;
      case EN_PROCESO => assert ESTADOS[1] == e;
      case PREPARADO => assert ESTADOS[2] == e;
      case ENTREGADO => assert ESTADOS[3] == e;
      case CANCELADO => assert ESTADOS[4] == e;
    }
  }

  /** The four categories, listed once each, and nothing else. */
  lemma CategoriasAreFour()
    ensures forall c: Categoria :: c in CATEGORIAS
    ensures |CATEGORIAS| == 4
    ensures forall i, j :: 0 <= i < j < |CATEGORIAS| ==> CATEGORIAS[i] != CATEGORIAS[j]
  {
    forall c: Categoria ensures c in CATEGORIAS {
      match c
      case ENTRADA => assert CATEGORIAS[0] == c;
      case PLATO_PRINCIPAL => assert CATEGORIAS[1] == c;
      case POSTRES => assert CATEGORIAS[2] == c;
      case BEBIDAS => assert CATEGORIAS[3] == c;
    }
  }

  /** `Record<Estado, string>`: every state has a colour. */
  lemma ColorsTotal()
    ensures forall e: Estado :: e in ESTADO_COLORS
  {
    forall e: Estado ensures e in ESTADO_COLORS {
      EstadosAreFive();
      assert e in ESTADOS;
    }
  }

  /** Every state has a label, and no two states share one. */
  lemma LabelsTotalAndDistinct()
    ensures forall e: Estado :: e in ESTADO_LABELS
    ensures forall e1: Estado, e2: Estado :: e1 != e2 ==> ESTADO_LABELS[e1] != ESTADO_LABELS[e2]
  {
    EstadosAreFive();
    forall e: Estado ensures e in ESTADO_LABELS {
      assert e in ESTADOS;
    }
  }
}
