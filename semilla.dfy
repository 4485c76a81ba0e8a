/**
  The seeded legal knowledge. The keyword retriever's base and the knowledge
  manager's default base hold the same three categories with the same entries,
  so the entries are declared once here and both modules build on them.
 */
module Semilla {
  /** `contrato_realidad.concepto`. */
  const Concepto := "El contrato realidad es una figura jurídica que permite reconocer una relación laboral cuando existe una relación de trabajo subordinado pero se ha disfrazado bajo otra figura contractual."

  /** `contrato_realidad.elementos`. */
  const Elementos: seq<string> := [
    "Subordinación jurídica",
    "Prestación personal del servicio",
    "Continuidad en la prestación",
    "Remuneración periódica",
    "Ausencia de contrato laboral formal"
  ]

  /** `contrato_realidad.jurisprudencia`. */
  const Jurisprudencia: seq<string> := [
    "Sentencia C-614 de 2009 de la Corte Constitucional",
    "Sentencia T-1234 de 2018 sobre contrato realidad",
    "Sentencia C-789 de 2020 sobre protección laboral"
  ]

  /** `contrato_realidad.normativa`. */
  const Normativa: seq<string> := [
    "Artículo 23 del Código Sustantivo del Trabajo",
    "Artículo 25 del CST sobre presunción de laboralidad",
    "Artículo 26 del CST sobre contrato de trabajo"
  ]

  /** `derecho_laboral_colombiano.principios`. */
  const Principios: seq<string> := [
    "Protección al trabajador",
    "Realidad sobre las formas",
    "Primacía de la realidad",
    "Continuidad de la relación laboral"
  ]

  /** `derecho_laboral_colombiano.derechos_trabajador`. */
  const DerechosTrabajador: seq<string> := [
    "Salario mínimo legal",
    "Prestaciones sociales",
    "Seguridad social",
    "Vacaciones y descansos",
    "Indemnización por despido"
  ]

  /** `demanda_laboral.requisitos`. */
  const Requisitos: seq<string> := [
    "Competencia del juez laboral",
    "Identificación clara de las partes",
    "Narración de hechos",
    "Pretensiones específicas",
    "Fundamentos jurídicos",
    "Medios de prueba",
    "Petición final"
  ]

  /** `demanda_laboral.plazos`. */
  const Plazos: seq<string> := [
    "Prescripción ordinaria: 3 años",
    "Prescripción especial: 1 año para algunos casos",
    "Término de contestación: 10 días"
  ]
}
