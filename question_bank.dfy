/** The built-in question bank of js/app.js (`generateQuestions`): 40 items written out in
    the source, repeated three times. The items are listed in source order, ten per function,
    so that a proof about the bank's shape never has to unfold the texts. */
module QuestionBank {

  /** A trivia item: text `t`, category `c`, options `o`, index `a` of the right option, hint `h`. */
  datatype Question = Question(t: string, c: string, o: seq<string>, a: int, h: string)

  const OPTION_COUNT := 4
  const BASE_SIZE := 40
  const COPIES := 3
  const BANK_SIZE := BASE_SIZE * COPIES

  /** Four options, and the right answer is one of them. */
  predicate WellFormed(q: Question) {
    |q.o| == OPTION_COUNT && 0 <= q.a < |q.o|
  }

  predicate AllWellFormed(qs: seq<Question>) {
    forall q :: q in qs ==> WellFormed(q)
  }

  /** Items 0 to 9 of the base list. */
  function FirstTen(k: nat): (q: Question)
    requires k < 10
    ensures WellFormed(q)
  {
    match k
    case 0 => Question("¿Planeta Rojo?", "Astronomía", ["Venus", "Marte", "Júpiter", "Saturno"], 1, "Es el cuarto planeta desde el Sol.")
    case 1 => Question("Símbolo del Oro", "Química", ["Ag", "Au", "Fe", "Cu"], 1, "Viene del latín Aurum.")
    case 2 => Question("E = mc^2 es de...", "Física", ["Newton", "Einstein", "Tesla", "Bohr"], 1, "Famoso por su teoría de la relatividad.")
    case 3 => Question("Capital de Japón", "Geografía", ["Seúl", "Tokio", "Pekín", "Bangkok"], 1, "Ciudad famosa por el cruce de Shibuya.")
    case 4 => Question("¿Hueso más largo?", "Anatomía", ["Fémur", "Tibia", "Húmero", "Radio"], 0, "Está en el muslo.")
    case 5 => Question("Padre de la computación", "Historia", ["Turing", "Gates", "Jobs", "Babbage"], 0, "Descifró el código Enigma.")
    case 6 => Question("Velocidad de la luz", "Física", ["300.000 km/s", "150.000 km/s", "1.000 km/s", "3.000 km/s"], 0, "Es lo más rápido del universo.")
    case 7 => Question("Pintó la Mona Lisa", "Arte", ["Van Gogh", "Da Vinci", "Picasso", "Monet"], 1, "Renacentista italiano.")
    case 8 => Question("Raíz cuadrada de 64", "Matemáticas", ["6", "8", "10", "4"], 1, "8 por 8.")
    case 9 => Question("Creador de Facebook", "Tecnología", ["Musk", "Zuckerberg", "Bezos", "Page"], 1, "Empezó en Harvard.")
  }

  /** Items 10 to 19 of the base list. */
  function SecondTen(k: nat): (q: Question)
    requires k < 10
    ensures WellFormed(q)
  {
    match k
    case 0 => Question("¿Autor del Quijote?", "Literatura", ["Lope de Vega", "Cervantes", "Góngora", "Quevedo"], 1, "El manco de Lepanto.")
    case 1 => Question("Elemento 'O'", "Química", ["Oro", "Osmio", "Oxígeno", "Oganesón"], 2, "Vital para la respiración humana.")
    case 2 => Question("¿Dónde está la Torre Eiffel?", "Geografía", ["Londres", "Berlín", "Roma", "París"], 3, "Capital de Francia.")
    case 3 => Question("Año llegada a la Luna", "Historia", ["1969", "1975", "1960", "1980"], 0, "Un pequeño paso para el hombre.")
    case 4 => Question("Animal más rápido (tierra)", "Biología", ["León", "Guepardo", "Gacela", "Caballo"], 1, "Felino africano con manchas.")
    case 5 => Question("Fundador de Microsoft", "Tecnología", ["Steve Jobs", "Bill Gates", "Jeff Bezos", "Tim Cook"], 1, "Amigo de Paul Allen.")
    case 6 => Question("¿Cuántos lados tiene un hexágono?", "Matemáticas", ["5", "6", "7", "8"], 1, "Piensa en un panal de abejas.")
    case 7 => Question("Pintó 'La Noche Estrellada'", "Arte", ["Dalí", "Van Gogh", "Rembrandt", "Matisse"], 1, "Se cortó una oreja.")
    case 8 => Question("Moneda del Reino Unido", "Economía", ["Euro", "Dólar", "Libra", "Franco"], 2, "Esterlina.")
    case 9 => Question("¿Qué es el 'HTML'?", "Tecnología", ["Hardware", "Lenguaje Web", "Base de datos", "Sistema Operativo"], 1, "Estructura las páginas de internet.")
  }

  /** Items 20 to 29 of the base list. */
  function ThirdTen(k: nat): (q: Question)
    requires k < 10
    ensures WellFormed(q)
  {
    match k
    case 0 => Question("Diosa griega de la sabiduría", "Mitología", ["Afrodita", "Hera", "Atenea", "Artemisa"], 2, "Nació de la cabeza de Zeus.")
    case 1 => Question("Continente más grande", "Geografía", ["América", "África", "Asia", "Europa"], 2, "Contiene a China y la India.")
    case 2 => Question("Fórmula del agua", "Química", ["HO", "H2O", "H2O2", "OH"], 1, "Dos de hidrógeno, uno de oxígeno.")
    case 3 => Question("Primer presidente de EE.UU.", "Historia", ["Lincoln", "Washington", "Jefferson", "Franklin"], 1, "Aparece en el billete de 1 dólar.")
    case 4 => Question("¿Qué estudia la botánica?", "Ciencia", ["Animales", "Rocas", "Plantas", "Estrellas"], 2, "Reino Plantae.")
    case 5 => Question("Valor aproximado de Pi", "Matemáticas", ["3.14", "3.41", "3.12", "3.16"], 0, "Relación circunferencia-diámetro.")
    case 6 => Question("Instrumento para ver estrellas", "Astronomía", ["Microscopio", "Telescopio", "Periscopio", "Estetoscopio"], 1, "Galileo lo perfeccionó.")
    case 7 => Question("Capital de Alemania", "Geografía", ["Múnich", "Hamburgo", "Berlín", "Frankfurt"], 2, "Tuvo un muro famoso.")
    case 8 => Question("¿Quién es '007'?", "Cine", ["James Bond", "Indiana Jones", "Ethan Hunt", "Jason Bourne"], 0, "Al servicio de su Majestad.")
    case 9 => Question("Planeta con anillos visibles", "Astronomía", ["Marte", "Saturno", "Mercurio", "Neptuno"], 1, "Sexto planeta del sistema solar.")
  }

  /** Items 30 to 39 of the base list. */
  function FourthTen(k: nat): (q: Question)
    requires k < 10
    ensures WellFormed(q)
  {
    match k
    case 0 => Question("Idioma más hablado (nativo)", "Demografía", ["Inglés", "Español", "Chino Mandarín", "Hindi"], 2, "Principalmente en China.")
    case 1 => Question("Metal líquido a temperatura ambiente", "Química", ["Hierro", "Mercurio", "Plomo", "Aluminio"], 1, "Usado en termómetros antiguos.")
    case 2 => Question("Rey de los dioses nórdicos", "Mitología", ["Thor", "Loki", "Odin", "Baldur"], 2, "Padre de todo, tiene un solo ojo.")
    case 3 => Question("Creador de Mickey Mouse", "Entretenimiento", ["Walt Disney", "Stan Lee", "Hanna-Barbera", "Matt Groening"], 0, "Fundó un imperio de animación.")
    case 4 => Question("Órgano que bombea sangre", "Anatomía", ["Hígado", "Corazón", "Pulmón", "Cerebro"], 1, "Late constantemente.")
    case 5 => Question("¿Qué es la 'RAM'?", "Tecnología", ["Disco Duro", "Memoria Volátil", "Procesador", "Tarjeta Gráfica"], 1, "Se borra al apagar la PC.")
    case 6 => Question("País del Sol Naciente", "Geografía", ["China", "Corea", "Japón", "Tailandia"], 2, "Su bandera es un círculo rojo.")
    case 7 => Question("Resultado de 7 x 8", "Matemáticas", ["54", "56", "48", "64"], 1, "Cincuenta y...")
    case 8 => Question("Autor de Harry Potter", "Literatura", ["Tolkien", "J.K. Rowling", "George R.R. Martin", "Stephen King"], 1, "Escritora británica.")
    case 9 => Question("¿Qué gas respiramos?", "Biología", ["Helio", "Metano", "Oxígeno", "Dióxido de Carbono"], 2, "O2.")
  }

  /** Item `k` of the base list. */
  function Item(k: nat): (q: Question)
    requires k < BASE_SIZE
    ensures WellFormed(q)
  {
    if k < 10 then FirstTen(k)
    else if k < 20 then SecondTen(k - 10)
    else if k < 30 then ThirdTen(k - 20)
    else FourthTen(k - 30)
  }

  /** The base list `base` of `generateQuestions`. */
  function Base(): seq<Question> {
    seq(BASE_SIZE, k requires 0 <= k < BASE_SIZE => Item(k))
  }

  /** `generateQuestions`: `[...base, ...base, ...base]`. */
  function GenerateQuestions(): seq<Question> {
    Base() + Base() + Base()
  }

  /** Three copies of a 40-item list, read at `i`, give the item at `i` modulo 40. */
  lemma ThreeCopies<T>(b: seq<T>, i: nat)
    requires |b| == BASE_SIZE && i < COPIES * BASE_SIZE
    ensures (b + b + b)[i] == b[i % BASE_SIZE]
  {
    if i < |b| {
      assert (b + b + b)[i] == b[i];
    } else if i < 2 * |b| {
      assert (b + b + b)[i] == b[i - |b|];
    } else {
      assert (b + b + b)[i] == b[i - 2 * |b|];
    }
  }

  /** Every base item is well formed. */
  lemma BaseWellFormed()
    ensures |Base()| == BASE_SIZE && AllWellFormed(Base())
  {
    forall q | q in Base() ensures WellFormed(q) {
      var k :| 0 <= k < BASE_SIZE && Base()[k] == q;
      assert q == Item(k);
    }
  }

  /** The generated bank has 120 items, item `i` is base item `i mod 40`, and every item is well formed. */
  lemma GeneratedBankWellFormed()
    ensures |GenerateQuestions()| == BANK_SIZE
    ensures forall i :: 0 <= i < BANK_SIZE ==> GenerateQuestions()[i] == Base()[i % BASE_SIZE]
    ensures AllWellFormed(GenerateQuestions())
  {
    var b := Base();
    BaseWellFormed();
    forall i | 0 <= i < BANK_SIZE ensures GenerateQuestions()[i] == b[i % BASE_SIZE] {
      ThreeCopies(b, i);
    }
    assert forall q :: q in GenerateQuestions() ==> q in b;
  }

  /** `qs` holds the generated bank in some order. */
  ghost predicate ShuffledBank(qs: seq<Question>) {
    multiset(qs) == multiset(GenerateQuestions())
  }

  /** Any rearrangement of the generated bank is as well formed as the bank. */
  lemma PermutedBankWellFormed(qs: seq<Question>)
    requires ShuffledBank(qs)
    ensures |qs| == BANK_SIZE && AllWellFormed(qs)
  {
    GeneratedBankWellFormed();
    assert |qs| == |multiset(qs)|;
    forall q | q in qs ensures WellFormed(q) {
      assert q in multiset(qs);
    }
  }
}
