/**
 * The constant data behind the language switch: the locale descriptions (lib/locales.js)
 * and the two translation tables (lib/translations.js).
 */
module Translations {

  /** A translation value: a text, or a nested table of further entries. */
  datatype Entry = Text(text: string) | Table(entries: map<string, Entry>)

  /** The description of a supported locale. */
  datatype LocaleInfo = LocaleInfo(name: string, code: string, flag: string)

  /** `locales` (lib/locales.js:2-13). */
  const Locales: map<string, LocaleInfo> := map[
    "en" := LocaleInfo("English", "en", "\U{1F1FA}\U{1F1F8}"),
    "ru" := LocaleInfo("Русский", "ru", "\U{1F1F7}\U{1F1FA}")
  ]

  /** `defaultLocale` (lib/locales.js:15). */
  const DefaultLocale := "en"

  /** The English table (lib/translations.js:3-61). */
  const English: map<string, Entry> := map[
      "home" := Text("Home"),
      "posts" := Text("Repositories"),
      "contact" := Text("Contact"),
      "greeting" := Text("Hi, I'm Sergey"),
      "bio" := Text("I'm a frontend developer passionate about creating modern web applications. Welcome to my portfolio!"),
      "allRepositories" := Text("All Repositories"),
      "featuredRepositories" := Text("Featured Repositories"),
      "viewRepository" := Text("View Repository"),
      "technologies" := Text("Technologies"),
      "contactTitle" := Text("How can I help you?"),
      "yourEmail" := Text("Your Email"),
      "yourName" := Text("Your Name"),
      "yourMessage" := Text("Your Message"),
      "sendMessage" := Text("Send Message"),
      "projectInMind" := Text("Have a project in mind? Let's work together!"),
      "otherWays" := Text("Other ways to connect"),
      "emailTitle" := Text("Email"),
      "telegramTitle" := Text("Telegram"),
      "portfolioTitle" := Text("Portfolio"),
      "telegramUsername" := Text("@fajllovt42"),
      "portfolioUrl" := Text("figrac0.github.io"),
      "emailPlaceholder" := Text("john@example.com"),
      "namePlaceholder" := Text("John Doe"),
      "messagePlaceholder" := Text("Tell me about your project..."),
      "sendingMessage" := Text("Sending message..."),
      "messageOnWay" := Text("Your message is on its way!"),
      "success" := Text("Success!"),
      "messageSent" := Text("Message sent successfully!"),
      "error" := Text("Error!"),
      "switchLanguage" := Text("Switch language"),
      "readMore" := Text("Read More"),
      "backToHome" := Text("Back to Home"),
      "siteDescription" := Text("My portfolio showcasing projects and repositories"),
      "allPostsDescription" := Text("A list of all my programming repositories and projects!"),
      "contactDescription" := Text("Send me your messages or collaboration proposals!"),
      "searchPlaceholder" := Text("Search repositories..."),
      "filterByTech" := Text("Filter by technology")
  ]

  /** The Russian table (lib/translations.js:62-121). */
  const Russian: map<string, Entry> := map[
      "home" := Text("Главная"),
      "posts" := Text("Репозитории"),
      "contact" := Text("Контакты"),
      "greeting" := Text("Привет, я Сергей"),
      "bio" := Text("Я фронтенд-разработчик, увлеченный созданием современных веб-приложений. Добро пожаловать в мое портфолио!"),
      "allRepositories" := Text("Все репозитории"),
      "featuredRepositories" := Text("Избранные репозитории"),
      "viewRepository" := Text("Посмотреть репозиторий"),
      "technologies" := Text("Технологии"),
      "contactTitle" := Text("Чем я могу помочь?"),
      "yourEmail" := Text("Ваш Email"),
      "yourName" := Text("Ваше Имя"),
      "yourMessage" := Text("Ваше Сообщение"),
      "sendMessage" := Text("Отправить Сообщение"),
      "projectInMind" := Text("Есть проект? Давайте работать вместе!"),
      "otherWays" := Text("Другие способы связи"),
      "emailTitle" := Text("Почта"),
      "telegramTitle" := Text("Телеграм"),
      "portfolioTitle" := Text("Портфолио"),
      "telegramUsername" := Text("@fajllovt42"),
      "portfolioUrl" := Text("figrac0.github.io"),
      "emailPlaceholder" := Text("john@example.com"),
      "namePlaceholder" := Text("Иван Иванов"),
      "messagePlaceholder" := Text("Расскажите о вашем проекте..."),
      "sendingMessage" := Text("Отправка сообщения..."),
      "messageOnWay" := Text("Ваше сообщение отправляется!"),
      "success" := Text("Успех!"),
      "messageSent" := Text("Сообщение успешно отправлено!"),
      "error" := Text("Ошибка!"),
      "switchLanguage" := Text("Сменить язык"),
      "readMore" := Text("Подробнее"),
      "backToHome" := Text("На главную"),
      "siteDescription" := Text("Мое портфолио с проектами и репозиториями"),
      "allPostsDescription" := Text("Список всех моих репозиториев и проектов по программированию!"),
      "contactDescription" := Text("Отправьте мне сообщения или предложения о сотрудничестве!"),
      "searchPlaceholder" := Text("Поиск репозиториев..."),
      "filterByTech" := Text("Фильтр по технологиям")
  ]

  /** `translations` (lib/translations.js:2-122). */
  const Tables: map<string, Entry> := map["en" := Table(English), "ru" := Table(Russian)]
}
